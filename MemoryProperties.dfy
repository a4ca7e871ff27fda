/**
 * What the serializing memory's log-append design amounts to over several
 * calls: the log keeps every history ever written, a read right after a save
 * still shows the newest live messages, a score lands on the newest message,
 * and reading twice gives the same answer.
 */
module MemoryProperties {
  import opened Wrappers
  import opened Dicts
  import opened Json
  import opened Messages
  import opened ChatLog
  import opened Memory

  /**
   * A log written only by this memory holds the earlier histories `w`
   * followed by the live history `c`; a read with a window no wider than the
   * live history shows exactly its newest messages.
   */
  lemma ReadSeesLiveHistory(w: seq<Message>, c: seq<Message>, k: int)
    requires 1 <= k <= |c|
    ensures LoadLog(Serialize(w) + Serialize(c)) == Success(w + c)
    ensures Window(w + c, k) == Window(c, k)
  {
    LoadAfterAppend(w, c);
    WindowOfAppend(w, c, k);
  }

  /**
   * Scoring a log written for `w` appends the scored copy of `w`; reading it
   * back, the newest message carries the score.
   */
  lemma ScoreThenRead(w: seq<Message>, score: Value, k: int)
    requires w != [] && k >= 1
    ensures LoadLog(Serialize(w) + Serialize(ScoreLast(w, score))) == Success(w + ScoreLast(w, score))
    ensures var v := Window(w + ScoreLast(w, score), k);
      v != [] && Lookup(v[|v| - 1].kwargs, "score") == Some(score)
  {
    var s := ScoreLast(w, score);
    LoadAfterAppend(w, s);
    WindowKeepsNewest(w + s, k);
    assert (w + s)[|w + s| - 1] == s[|w| - 1];
  }

  /**
   * When the window is at least twice the history, a read after scoring shows
   * the history twice: the copy the log already held and the scored copy.
   */
  lemma ScoreShowsHistoryTwice(w: seq<Message>, score: Value, k: int)
    requires w != [] && k >= 2 * |w|
    ensures LoadLog(Serialize(w) + Serialize(ScoreLast(w, score))) == Success(w + ScoreLast(w, score))
    ensures Window(w + ScoreLast(w, score), k) == w + ScoreLast(w, score)
  {
    LoadAfterAppend(w, ScoreLast(w, score));
  }

  /** A `get_prompt_input_key` that is never consulted here, since the input key is configured. */
  function NoPromptKey(inputs: Dict<string>, memoryVariables: seq<string>): Option<string> {
    None
  }

  /**
   * Reading never writes the log, so a second `buffer` returns what the first
   * did; both fail exactly when the log does not replay.
   */
  method ReadTwice(m: SerializingConversationMemory, bufferString: BufferString)
    returns (first: Result<BufferValue, Error>, second: Result<BufferValue, Error>)
    requires m.Valid()
    modifies m`chatMemory, m`logExists
    ensures first == second
    ensures first.Success? <==> old(m.Replayed()).Success?
  {
    ghost var rep := m.Replayed();
    ghost var k, rm, hp, ap := m.contextMsgs, m.returnMessages, m.humanPrefix, m.aiPrefix;
    first := m.Buffer(bufferString);
    assert m.Replayed() == rep;
    ghost var expected := if rep.Success? then Success(Render(Window(rep.value, k), rm, hp, ap, bufferString))
                          else Failure(LoadFailed(rep.error));
    assert first == expected;
    second := m.Buffer(bufferString);
    assert second == expected;
  }

  /**
   * With an output key unset and two outputs, saving fails before anything
   * changes: no message is appended and the log is untouched.
   */
  method AmbiguousOutputChangesNothing(log: string, input: string, out1: string, out2: string)
    returns (r: Result<(), Error>, history: seq<Message>, logAfter: string)
    ensures r == Failure(AmbiguousOutputKey(["a", "b"]))
    ensures history == [] && logAfter == log
  {
    var m := new SerializingConversationMemory("Human", "AI", "history", Some("input"), None, false, 4, Some(log));
    var outputs := Put(Singleton("a", out1), "b", out2);
    assert Keys(outputs) == ["a", "b"];
    r := m.SaveContext(Singleton("input", input), outputs, NoPromptKey);
    history, logAfter := m.chatMemory, m.log;
  }

  /** The string buffer after two turns from the defaults: four lines after an empty first one. */
  method StringBufferTwoTurns(in1: string, out1: string, in2: string, out2: string)
    returns (buffer: Result<string, Error>)
    ensures buffer == Success("\nHuman: " + in1 + "\nAI: " + out1 + "\nHuman: " + in2 + "\nAI: " + out2)
  {
    var created := ConversationStringBufferMemory.Create(DefaultStringBufferSettings());
    var m := created.value;
    var inputs1, outputs1 := Singleton("in", in1), Singleton("out", out1);
    assert m.humanPrefix == "Human" && m.aiPrefix == "AI" && m.buffer == "";
    assert m.inputKey == None && m.outputKey == None;
    var pick := (i: Dict<string>, v: seq<string>) => Some("in");
    assert ResolveKeys(None, None, inputs1, outputs1, m.MemoryVariables(), pick) == Success(("in", "out"));
    var r1 := m.SaveContext(inputs1, outputs1, pick);
    assert r1.Success?;
    var first := m.buffer;
    assert first == "" + "\n" + "Human" + ": " + in1 + "\n" + "AI" + ": " + out1;
    var r2 := m.SaveContext(Singleton("in", in2), Singleton("out", out2), pick);
    TurnLine("", "Human", "AI", in1, out1);
    assert "" + "\nHuman: " == "\nHuman: ";
    assert first == "\nHuman: " + in1 + "\nAI: " + out1;
    assert r2.Success?;
    TurnLine(first, "Human", "AI", in2, out2);
    return Success(m.buffer);
  }

  /** The text one turn appends, with the default prefixes written out. */
  lemma TurnLine(b: string, hp: string, ap: string, input: string, output: string)
    requires hp == "Human" && ap == "AI"
    ensures b + "\n" + hp + ": " + input + "\n" + ap + ": " + output
      == b + "\nHuman: " + input + "\nAI: " + output
  {
    assert "\n" + hp + ": " == "\nHuman: ";
    assert "\n" + ap + ": " == "\nAI: ";
  }
}
