/**
 * The chat log file: `_write_messages` appends one JSON record per message,
 * each followed by a newline, and `_load_messages` strips the file, splits it
 * at newlines and replays one message per line.
 */
module ChatLog {
  import opened Wrappers
  import opened Dicts
  import opened Text
  import opened Json
  import opened Messages

  /** Why replaying the log raised instead of returning a history. */
  datatype LoadError =
    | MalformedRecord(line: string)  // `json.loads` failed, or a key was missing
    | UnboundMessage                 // the first record had an unknown type, so `msg` was never bound

  /** `{"type": ..., "content": ..., "kwargs": ...}` as `json.dumps` writes it for `m`. */
  function EncodeMessage(m: Message): (line: string)
    ensures '\n' !in line
    ensures |line| >= 2 && line[0] == '{' && line[|line| - 1] == '}'
  {
    EncodeRecord(Record(TypeTag(m.kind), m.content, m.kwargs))
  }

  /** The lines of the log written for `ms`, one record each. */
  function Records(ms: seq<Message>): (lines: seq<string>)
    ensures |lines| == |ms|
    ensures forall i :: 0 <= i < |ms| ==> lines[i] == EncodeMessage(ms[i])
  {
    seq(|ms|, i requires 0 <= i < |ms| => EncodeMessage(ms[i]))
  }

  /** The text `_write_messages` appends for the history `ms`. */
  function Serialize(ms: seq<Message>): (text: string)
    ensures ms == [] <==> text == []
  {
    Lines(Records(ms))
  }

  /** One iteration of the replay loop: decode `line` and append its message. */
  function ReplayLine(ms: seq<Message>, line: string): (r: Result<seq<Message>, LoadError>)
    ensures r.Success? ==> |r.value| == |ms| + 1 && r.value[..|ms|] == ms
  {
    match DecodeRecord(line)
    case None => Failure(MalformedRecord(line))
    case Some(e) =>
      match KindOfTag(e.tag)
      case Some(k) => Success(ms + [Message(k, e.content, e.kwargs)])
      case None =>
        // No branch of the dispatch matched, so `msg` still holds the previous message.
        if ms == [] then Failure(UnboundMessage) else Success(ms + [ms[|ms| - 1]])
  }

  /** The replay loop run over `lines`, from an empty history. */
  function ReplayLines(lines: seq<string>): (r: Result<seq<Message>, LoadError>)
    ensures r.Success? ==> |r.value| == |lines|
    decreases |lines|, 1
  {
    if lines == [] then Success([]) else ReplayThrough(lines)
  }

  /** The replay loop run through the last of `lines`: the lines before it, then that line. */
  function ReplayThrough(lines: seq<string>): (r: Result<seq<Message>, LoadError>)
    requires lines != []
    ensures r.Success? ==> |r.value| == |lines|
    decreases |lines|, 0
  {
    var ms :- ReplayLines(lines[..|lines| - 1]);
    ReplayLine(ms, lines[|lines| - 1])
  }

  /** What `_load_messages` returns for an existing log whose text is `content`. */
  function LoadLog(content: string): Result<seq<Message>, LoadError> {
    var body := Strip(content);
    if body == [] then Success([]) else ReplayLines(Split(body))
  }

  /**
   * A log with nothing but white space loads as the empty history; any other
   * log that loads yields one message per line of its stripped text.
   */
  lemma LoadLogLines(content: string)
    ensures Strip(content) == [] ==> LoadLog(content) == Success([])
    ensures LoadLog(content).Success? && Strip(content) != [] ==>
      |LoadLog(content).value| == |Split(Strip(content))|
  {
  }

  /** `_load_messages` on an existing log whose text is `content`. */
  method ReadLog(content: string) returns (r: Result<seq<Message>, LoadError>)
    ensures r == LoadLog(content)
  {
    var body := Strip(content);
    if body == [] {
      return Success([]);
    }
    r := ReplayLog(Split(body));
  }

  /** The loop of `_load_messages` over the stripped log's lines. */
  method ReplayLog(lines: seq<string>) returns (r: Result<seq<Message>, LoadError>)
    ensures r == ReplayLines(lines)
  {
    var messages: seq<Message> := [];
    var i := 0;
    while i < |lines|
      invariant 0 <= i <= |lines|
      invariant ReplayLines(lines[..i]) == Success(messages)
    {
      ReplayPrefixStep(lines, i, messages);
      var step := ReplayLine(messages, lines[i]);
      if step.Failure? {
        ReplayFailurePersists(lines, i + 1);
        return Failure(step.error);
      }
      messages := step.value;
      i := i + 1;
    }
    assert lines[..i] == lines;
    return Success(messages);
  }

  /** Once a prefix of the lines fails to replay, the whole replay fails with the same error. */
  lemma {:induction false} ReplayFailurePersists(lines: seq<string>, i: nat)
    requires i <= |lines| && ReplayLines(lines[..i]).Failure?
    ensures ReplayLines(lines) == ReplayLines(lines[..i])
  {
    if i < |lines| {
      var init := lines[..|lines| - 1];
      assert init[..i] == lines[..i];
      ReplayFailurePersists(init, i);
      assert ReplayThrough(lines) == ReplayLines(init);
    } else {
      assert lines[..i] == lines;
    }
  }

  /** A line `json.loads` rejects after lines that all loaded makes the load raise, naming that line. */
  lemma MalformedLineRaises(lines: seq<string>, i: nat, ms: seq<Message>)
    requires i < |lines| && DecodeRecord(lines[i]).None? && ReplayLines(lines[..i]) == Success(ms)
    ensures ReplayLines(lines) == Failure(MalformedRecord(lines[i]))
  {
    ReplayPrefixStep(lines, i, ms);
    ReplayFailurePersists(lines, i + 1);
  }

  /** A line `json.loads` rejects makes the whole load raise: no line is ever skipped. */
  lemma MalformedLineIsFatal(lines: seq<string>, i: nat)
    requires i < |lines| && DecodeRecord(lines[i]).None?
    ensures ReplayLines(lines).Failure?
  {
    var prefix := ReplayLines(lines[..i]);
    if prefix.Success? {
      MalformedLineRaises(lines, i, prefix.value);
    } else {
      ReplayFailurePersists(lines, i);
    }
  }

  /** A first record whose `type` no branch matches leaves `msg` unbound, so the load raises. */
  lemma UnknownFirstTagIsFatal(lines: seq<string>)
    requires lines != [] && DecodeRecord(lines[0]).Some? && KindOfTag(DecodeRecord(lines[0]).value.tag).None?
    ensures ReplayLines(lines) == Failure(UnboundMessage)
  {
    assert lines[..0] == [];
    ReplayPrefixStep(lines, 0, []);
    ReplayFailurePersists(lines, 1);
  }

  /** A later record whose `type` no branch matches appends the previous message once more. */
  lemma UnknownTagRepeatsPrevious(lines: seq<string>, i: nat, ms: seq<Message>)
    requires 0 < i < |lines| && ReplayLines(lines[..i]) == Success(ms)
    requires DecodeRecord(lines[i]).Some? && KindOfTag(DecodeRecord(lines[i]).value.tag).None?
    ensures |ms| == i && ReplayLines(lines[..i + 1]) == Success(ms + [ms[i - 1]])
  {
    ReplayPrefixStep(lines, i, ms);
  }

  /** A record with a known `type` appends the message of that kind, content and kwargs. */
  lemma KnownTagAppends(lines: seq<string>, i: nat, ms: seq<Message>, e: Record, k: Kind)
    requires i < |lines| && ReplayLines(lines[..i]) == Success(ms)
    requires DecodeRecord(lines[i]) == Some(e) && KindOfTag(e.tag) == Some(k)
    ensures ReplayLines(lines[..i + 1]) == Success(ms + [Message(k, e.content, e.kwargs)])
  {
    ReplayPrefixStep(lines, i, ms);
  }

  /** A log that is empty or only white space replays to the empty history. */
  lemma BlankLogIsEmpty(content: string)
    requires forall i :: 0 <= i < |content| ==> IsSpace(content[i])
    ensures LoadLog(content) == Success([])
  {
    StripBlank(content);
  }

  /** Replaying the records of `ms` yields `ms`. */
  lemma {:induction false} ReplayRecords(ms: seq<Message>)
    ensures ReplayLines(Records(ms)) == Success(ms)
  {
    if ms != [] {
      var init, m := ms[..|ms| - 1], ms[|ms| - 1];
      assert init + [m] == ms;
      ReplayRecords(init);
      RecordsAppend(init, [m]);
      ReplayAppendLine(Records(init), EncodeMessage(m), init);
      MessageRoundTrip(init, m);
    }
  }

  /** Replaying one more line continues from the history replayed so far. */
  lemma ReplayAppendLine(lines: seq<string>, line: string, ms: seq<Message>)
    requires ReplayLines(lines) == Success(ms)
    ensures ReplayLines(lines + [line]) == ReplayLine(ms, line)
  {
    var all := lines + [line];
    assert all[..|all| - 1] == lines;
    assert ReplayThrough(all) == ReplayLine(ms, line);
  }

  /** Replaying the first `i + 1` lines continues from the replay of the first `i`. */
  lemma ReplayPrefixStep(lines: seq<string>, i: nat, ms: seq<Message>)
    requires i < |lines| && ReplayLines(lines[..i]) == Success(ms)
    ensures ReplayLines(lines[..i + 1]) == ReplayLine(ms, lines[i])
  {
    var all := lines[..i + 1];
    assert all[..|all| - 1] == lines[..i];
    assert ReplayThrough(all) == ReplayLine(ms, lines[i]);
  }

  /** Decoding one record restores the message that was encoded. */
  lemma MessageRoundTrip(ms: seq<Message>, m: Message)
    ensures ReplayLine(ms, EncodeMessage(m)) == Success(ms + [m])
  {
    RecordRoundTrip(Record(TypeTag(m.kind), m.content, m.kwargs));
  }

  /** Writing a history to an empty log and loading it back yields the same history. */
  lemma LoadSerialize(ms: seq<Message>)
    ensures LoadLog(Serialize(ms)) == Success(ms)
  {
    if ms != [] {
      var lines := Records(ms);
      assert lines[0][0] == '{';
      StripSplitLines(lines);
      ReplayRecords(ms);
    }
  }

  /** Writing one more message appends its record and a newline. */
  lemma SerializeStep(ms: seq<Message>, i: nat)
    requires i < |ms|
    ensures Serialize(ms[..i + 1]) == Serialize(ms[..i]) + (EncodeMessage(ms[i]) + "\n")
  {
    var r := Records(ms[..i + 1]);
    assert r[..i] == Records(ms[..i]);
  }

  /** Appending the text for `b` after the text for `a` gives the text for `a + b`. */
  lemma SerializeAppend(a: seq<Message>, b: seq<Message>)
    ensures Serialize(a + b) == Serialize(a) + Serialize(b)
  {
    RecordsAppend(a, b);
    LinesAppend(Records(a), Records(b));
  }

  lemma RecordsAppend(a: seq<Message>, b: seq<Message>)
    ensures Records(a + b) == Records(a) + Records(b)
  {
  }

  /**
   * Appending the text for `b` to a log written for `a` makes the log load
   * as `a + b`: every history ever written stays in the log, in order.
   */
  lemma LoadAfterAppend(a: seq<Message>, b: seq<Message>)
    ensures LoadLog(Serialize(a) + Serialize(b)) == Success(a + b)
  {
    SerializeAppend(a, b);
    LoadSerialize(a + b);
  }
}
