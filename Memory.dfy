/**
 * The three conversation memories of `langchain/memory/buffer.py`:
 * `ConversationBufferMemory`, a read-only view of a message history;
 * `ConversationStringBufferMemory`, which keeps the conversation as one
 * string; and `SerializingConversationMemory`, which mirrors its history
 * into an append-only log file and rebuilds it from that log on every read.
 *
 * The log file is the pair of fields `logExists` and `log` (the whole text of
 * the file). `get_prompt_input_key` and `get_buffer_string` are defined
 * outside this file; callers pass them in as functions.
 */
module Memory {
  import opened Wrappers
  import opened Dicts
  import opened Text
  import opened Json
  import opened Messages
  import opened ChatLog

  /** The exceptions the memories raise. */
  datatype Error =
    | NoPromptInputKey                   // `get_prompt_input_key` could not choose a key
    | AmbiguousOutputKey(keys: seq<string>)  // "One output key expected, got ..."
    | MissingKey(key: string)            // `KeyError` from `inputs[...]` or `outputs[...]`
    | LoadFailed(cause: LoadError)       // replaying the log raised
    | EmptyHistory                       // `IndexError` from `messages[-1]`
    | ReturnMessagesNotAllowed           // rejected by `validate_chains`

  /** `get_prompt_input_key(inputs, memory_variables)`; `None` where it raises. */
  type PromptInputKey = (Dict<string>, seq<string>) -> Option<string>

  /** `get_buffer_string(messages, human_prefix, ai_prefix)`. */
  type BufferString = (seq<Message>, string, string) -> string

  /** What `buffer` returns: the messages themselves, or their rendering as one string. */
  datatype BufferValue = MessageList(msgs: seq<Message>) | BufferText(text: string)

  /**
   * The keys `save_context` reads the turn from: the configured input key or
   * the one `get_prompt_input_key` picks, then the configured output key or
   * the only key of `outputs`.
   */
  function ResolveKeys(inputKey: Option<string>, outputKey: Option<string>,
                       inputs: Dict<string>, outputs: Dict<string>,
                       memoryVariables: seq<string>, promptInputKey: PromptInputKey)
    : (r: Result<(string, string), Error>)
    ensures r.Failure? <==> (inputKey.None? && promptInputKey(inputs, memoryVariables).None?)
                            || (outputKey.None? && |outputs| != 1)
    ensures inputKey.None? && promptInputKey(inputs, memoryVariables).None? ==> r == Failure(NoPromptInputKey)
    ensures r.Failure? && (inputKey.Some? || promptInputKey(inputs, memoryVariables).Some?)
      ==> r == Failure(AmbiguousOutputKey(Keys(outputs)))
    ensures r.Success? && inputKey.Some? ==> r.value.0 == inputKey.value
    ensures r.Success? && inputKey.None? ==> Some(r.value.0) == promptInputKey(inputs, memoryVariables)
    ensures r.Success? && outputKey.Some? ==> r.value.1 == outputKey.value
    ensures r.Success? && outputKey.None? ==> outputs == [(r.value.1, outputs[0].1)]
  {
    var ik :- if inputKey.Some? then Success(inputKey.value)
              else if promptInputKey(inputs, memoryVariables).Some? then Success(promptInputKey(inputs, memoryVariables).value)
              else Failure(NoPromptInputKey);
    var ok :- if outputKey.Some? then Success(outputKey.value)
              else if |outputs| == 1 then Success(outputs[0].0)
              else Failure(AmbiguousOutputKey(Keys(outputs)));
    Success((ik, ok))
  }

  /** Python's `h[-k:]`. */
  function Window<T>(h: seq<T>, k: int): (w: seq<T>)
    ensures |w| <= |h| && w == h[|h| - |w|..]
    ensures k >= 1 ==> |w| == (if k < |h| then k else |h|)
    ensures k == 0 ==> w == h
    ensures k < 0 ==> |w| == (if -k < |h| then |h| + k else 0)
  {
    var start :=
      if k > 0 then (if k < |h| then |h| - k else 0)
      else if k == 0 then 0
      else if -k < |h| then -k else |h|;
    h[start..]
  }

  lemma AppendTwo<T>(s: seq<T>, x: T, y: T)
    ensures s + [x] + [y] == s + [x, y]
  {
  }

  /** When the newest `k` messages all come from `b`, appending `b` to anything shows the same window. */
  lemma WindowOfAppend<T>(a: seq<T>, b: seq<T>, k: int)
    requires 1 <= k <= |b|
    ensures Window(a + b, k) == Window(b, k)
  {
    assert (a + b)[|a + b| - k..] == b[|b| - k..];
  }

  /** Taking the window of a window changes nothing, unless `k` is negative. */
  lemma WindowTwice<T>(h: seq<T>, k: int)
    requires k >= 0
    ensures Window(Window(h, k), k) == Window(h, k)
  {
  }

  /** A positive window keeps the newest message. */
  lemma WindowKeepsNewest<T>(h: seq<T>, k: int)
    requires h != [] && k >= 1
    ensures var w := Window(h, k); w != [] && w[|w| - 1] == h[|h| - 1]
  {
  }

  /** A negative `k` drops messages from the front each time it is applied. */
  lemma WindowNegativeShrinks<T>(h: seq<T>, k: int)
    requires k < 0 && h != []
    ensures |Window(h, k)| < |h|
  {
  }

  /** The value of `buffer` for the history `msgs`. */
  function Render(msgs: seq<Message>, returnMessages: bool, humanPrefix: string, aiPrefix: string,
                  bufferString: BufferString): (v: BufferValue)
    ensures v.MessageList? <==> returnMessages
    ensures v.MessageList? ==> v.msgs == msgs
    ensures v.BufferText? ==> v.text == bufferString(msgs, humanPrefix, aiPrefix)
  {
    if returnMessages then MessageList(msgs) else BufferText(bufferString(msgs, humanPrefix, aiPrefix))
  }

  /** `ConversationBufferMemory`: reads its history without changing anything. */
  class ConversationBufferMemory {
    var humanPrefix: string
    var aiPrefix: string
    var memoryKey: string
    var returnMessages: bool
    var chatMemory: seq<Message>

    constructor(humanPrefix: string, aiPrefix: string, memoryKey: string, returnMessages: bool,
                chatMemory: seq<Message>)
      ensures this.humanPrefix == humanPrefix && this.aiPrefix == aiPrefix
      ensures this.memoryKey == memoryKey && this.returnMessages == returnMessages
      ensures this.chatMemory == chatMemory
    {
      this.humanPrefix := humanPrefix;
      this.aiPrefix := aiPrefix;
      this.memoryKey := memoryKey;
      this.returnMessages := returnMessages;
      this.chatMemory := chatMemory;
    }

    function MemoryVariables(): (vs: seq<string>)
      reads this
      ensures |vs| == 1 && vs[0] == memoryKey
    {
      [memoryKey]
    }

    /** `buffer`: the history itself, or its rendering with the two prefixes. */
    function Buffer(bufferString: BufferString): (v: BufferValue)
      reads this
      ensures v.MessageList? <==> returnMessages
      ensures v.MessageList? ==> v.msgs == chatMemory
      ensures v.BufferText? ==> v.text == bufferString(chatMemory, humanPrefix, aiPrefix)
    {
      Render(chatMemory, returnMessages, humanPrefix, aiPrefix, bufferString)
    }

    /** `load_memory_variables`: one entry, under the memory key, holding the buffer. */
    function LoadMemoryVariables(inputs: Dict<string>, bufferString: BufferString): (r: Dict<BufferValue>)
      reads this
      ensures Keys(r) == MemoryVariables()
      ensures Lookup(r, memoryKey) == Some(Buffer(bufferString))
    {
      Singleton(memoryKey, Buffer(bufferString))
    }
  }

  /** The keyword arguments a `ConversationStringBufferMemory` is built from. */
  datatype StringBufferSettings = StringBufferSettings(
    humanPrefix: string, aiPrefix: string, buffer: string,
    outputKey: Option<string>, inputKey: Option<string>, memoryKey: string,
    returnMessages: bool)

  /** The defaults of the class's fields; `return_messages` is not set. */
  function DefaultStringBufferSettings(): StringBufferSettings {
    StringBufferSettings("Human", "AI", "", None, None, "history", false)
  }

  /** `validate_chains`: the settings unchanged, unless they ask for messages. */
  function ValidateChains(values: StringBufferSettings): (r: Result<StringBufferSettings, Error>)
    ensures r.Failure? <==> values.returnMessages
    ensures r.Failure? ==> r.error == ReturnMessagesNotAllowed
    ensures r.Success? ==> r.value == values
  {
    if values.returnMessages then Failure(ReturnMessagesNotAllowed) else Success(values)
  }

  /** The line pair `save_context` adds to the string buffer. */
  function TurnText(human: string, ai: string): (t: string)
    ensures t == "\n" + human + "\n" + ai
  {
    JoinPair(human, ai);
    "\n" + Join([human, ai])
  }

  lemma JoinPair(human: string, ai: string)
    ensures "\n" + Join([human, ai]) == "\n" + human + "\n" + ai
  {
    assert [human, ai][..1] == [human];
    Assoc("\n", human + "\n", ai);
    Assoc("\n", human, "\n");
  }

  /** Each turn saved to the string buffer adds exactly two lines to it. */
  lemma SaveAddsTwoLines(buffer: string, human: string, ai: string)
    requires '\n' !in human && '\n' !in ai
    ensures Split(buffer + TurnText(human, ai)) == Split(buffer) + [human, ai]
  {
    SplitAppend(buffer, human);
    SplitAppend(buffer + "\n" + human, ai);
    assert buffer + TurnText(human, ai) == buffer + "\n" + human + "\n" + ai;
  }

  /** `ConversationStringBufferMemory`: the conversation kept as one growing string. */
  class ConversationStringBufferMemory {
    var humanPrefix: string
    var aiPrefix: string
    var buffer: string
    var outputKey: Option<string>
    var inputKey: Option<string>
    var memoryKey: string

    constructor(values: StringBufferSettings)
      requires !values.returnMessages
      ensures humanPrefix == values.humanPrefix && aiPrefix == values.aiPrefix
      ensures buffer == values.buffer && memoryKey == values.memoryKey
      ensures outputKey == values.outputKey && inputKey == values.inputKey
    {
      humanPrefix := values.humanPrefix;
      aiPrefix := values.aiPrefix;
      buffer := values.buffer;
      outputKey := values.outputKey;
      inputKey := values.inputKey;
      memoryKey := values.memoryKey;
    }

    /** Construction through the validator: settings asking for messages are refused. */
    static method Create(values: StringBufferSettings) returns (r: Result<ConversationStringBufferMemory, Error>)
      ensures r.Failure? <==> values.returnMessages
      ensures r.Failure? ==> r.error == ReturnMessagesNotAllowed
      ensures r.Success? ==>
        && fresh(r.value) && r.value.buffer == values.buffer
        && r.value.humanPrefix == values.humanPrefix && r.value.aiPrefix == values.aiPrefix
        && r.value.memoryKey == values.memoryKey
        && r.value.inputKey == values.inputKey && r.value.outputKey == values.outputKey
    {
      var checked := ValidateChains(values);
      if checked.Failure? {
        return Failure(checked.error);
      }
      var m := new ConversationStringBufferMemory(checked.value);
      return Success(m);
    }

    function MemoryVariables(): (vs: seq<string>)
      reads this`memoryKey
      ensures |vs| == 1 && vs[0] == memoryKey
    {
      [memoryKey]
    }

    /** `load_memory_variables`: the buffer under the memory key. */
    function LoadMemoryVariables(inputs: Dict<string>): (r: Dict<string>)
      reads this
      ensures Keys(r) == MemoryVariables()
      ensures Lookup(r, memoryKey) == Some(buffer)
    {
      Singleton(memoryKey, buffer)
    }

    /**
     * `save_context`: both lines are built before the buffer is touched, so
     * every failure leaves the buffer as it was.
     */
    method SaveContext(inputs: Dict<string>, outputs: Dict<string>, promptInputKey: PromptInputKey)
      returns (r: Result<(), Error>)
      modifies this`buffer
      ensures var keys := ResolveKeys(inputKey, outputKey, inputs, outputs, MemoryVariables(), promptInputKey);
        && (keys.Failure? ==> r == Failure(keys.error))
        && (keys.Success? ==>
              (r.Success? <==> Lookup(inputs, keys.value.0).Some? && Lookup(outputs, keys.value.1).Some?))
        && (r.Success? ==> buffer == old(buffer) + "\n" + humanPrefix + ": " + Lookup(inputs, keys.value.0).value
                                    + "\n" + aiPrefix + ": " + Lookup(outputs, keys.value.1).value)
      ensures r.Failure? ==> buffer == old(buffer)
    {
      var keys := ResolveKeys(inputKey, outputKey, inputs, outputs, MemoryVariables(), promptInputKey);
      if keys.Failure? {
        return Failure(keys.error);
      }
      var (ik, ok) := keys.value;
      var input := Lookup(inputs, ik);
      if input.None? {
        return Failure(MissingKey(ik));
      }
      var output := Lookup(outputs, ok);
      if output.None? {
        return Failure(MissingKey(ok));
      }
      var human := humanPrefix + ": " + input.value;
      var ai := aiPrefix + ": " + output.value;
      buffer := buffer + TurnText(human, ai);
      return Success(());
    }

    /** `clear`. */
    method Clear()
      modifies this`buffer
      ensures buffer == ""
    {
      buffer := "";
    }
  }

  /** A replay result with the log's error wrapped as the memory's. */
  function LoadResult(rep: Result<seq<Message>, LoadError>): Result<seq<Message>, Error> {
    if rep.Success? then Success(rep.value) else Failure(LoadFailed(rep.error))
  }

  /**
   * `SerializingConversationMemory`: a live history `chatMemory` and the log
   * file it appends to; reads replace the history with the newest
   * `contextMsgs` messages of the replayed log.
   */
  class SerializingConversationMemory {
    var humanPrefix: string
    var aiPrefix: string
    var memoryKey: string
    var inputKey: Option<string>
    var outputKey: Option<string>
    var returnMessages: bool
    var contextMsgs: int
    var chatMemory: seq<Message>
    var logExists: bool
    var log: string

    /** A file that does not exist has no text. */
    predicate Valid()
      reads this`logExists, this`log
    {
      !logExists ==> log == []
    }

    /** A memory with an empty history over an optional existing log file. */
    constructor(humanPrefix: string, aiPrefix: string, memoryKey: string,
                inputKey: Option<string>, outputKey: Option<string>,
                returnMessages: bool, contextMsgs: int, initialLog: Option<string>)
      ensures Valid()
      ensures this.humanPrefix == humanPrefix && this.aiPrefix == aiPrefix && this.memoryKey == memoryKey
      ensures this.inputKey == inputKey && this.outputKey == outputKey
      ensures this.returnMessages == returnMessages && this.contextMsgs == contextMsgs
      ensures chatMemory == []
      ensures logExists == initialLog.Some? && log == (if initialLog.Some? then initialLog.value else [])
    {
      this.humanPrefix := humanPrefix;
      this.aiPrefix := aiPrefix;
      this.memoryKey := memoryKey;
      this.inputKey := inputKey;
      this.outputKey := outputKey;
      this.returnMessages := returnMessages;
      this.contextMsgs := contextMsgs;
      chatMemory := [];
      logExists := initialLog.Some?;
      log := if initialLog.Some? then initialLog.value else [];
    }

    function MemoryVariables(): (vs: seq<string>)
      reads this`memoryKey
      ensures |vs| == 1 && vs[0] == memoryKey
    {
      [memoryKey]
    }

    /** The keys `save_context` reads the turn from. */
    function TurnKeys(inputs: Dict<string>, outputs: Dict<string>, promptInputKey: PromptInputKey)
      : Result<(string, string), Error>
      reads this`inputKey, this`outputKey, this`memoryKey
    {
      ResolveKeys(inputKey, outputKey, inputs, outputs, MemoryVariables(), promptInputKey)
    }

    /** The history the log holds: nothing for a missing file, otherwise its replay. */
    function Replayed(): Result<seq<Message>, LoadError>
      reads this`logExists, this`log
    {
      if logExists then LoadLog(log) else Success([])
    }

    /**
     * `_load_messages`: a missing log is created empty; an existing one is
     * replayed. The live history is not touched.
     */
    method LoadMessages() returns (r: Result<seq<Message>, Error>)
      requires Valid()
      modifies this`logExists
      ensures Valid() && logExists && log == old(log)
      ensures r == LoadResult(old(Replayed()))
      ensures Replayed() == old(Replayed())
    {
      if !logExists {
        logExists := true;
        return Success([]);
      }
      var rep := ReadLog(log);
      return LoadResult(rep);
    }

    /** `_write_messages`: appends one record line per message of the live history. */
    method WriteMessages()
      requires Valid()
      modifies this`log, this`logExists
      ensures Valid() && logExists
      ensures log == old(log) + Serialize(chatMemory)
    {
      logExists := true;
      var i := 0;
      assert chatMemory[..0] == [];
      while i < |chatMemory|
        invariant 0 <= i <= |chatMemory|
        invariant logExists
        invariant log == old(log) + Serialize(chatMemory[..i])
      {
        SerializeStep(chatMemory, i);
        Assoc(old(log), Serialize(chatMemory[..i]), EncodeMessage(chatMemory[i]) + "\n");
        log := log + (EncodeMessage(chatMemory[i]) + "\n");
        i := i + 1;
      }
      assert chatMemory[..i] == chatMemory;
    }

    /**
     * `buffer`: replaces the live history by the newest `contextMsgs`
     * messages of the replayed log and returns them, or their rendering.
     */
    method Buffer(bufferString: BufferString) returns (r: Result<BufferValue, Error>)
      requires Valid()
      modifies this`chatMemory, this`logExists
      ensures Valid() && logExists && log == old(log)
      ensures Replayed() == old(Replayed())
      ensures var rep := old(Replayed());
        && (rep.Failure? ==> r == Failure(LoadFailed(rep.error)) && chatMemory == old(chatMemory))
        && (rep.Success? ==>
              && chatMemory == Window(rep.value, contextMsgs)
              && r == Success(Render(chatMemory, returnMessages, humanPrefix, aiPrefix, bufferString)))
    {
      ghost var rep := Replayed();
      var loaded := LoadMessages();
      if loaded.Failure? {
        assert rep.Failure? && loaded.error == LoadFailed(rep.error);
        return Failure(loaded.error);
      }
      assert rep.Success? && loaded.value == rep.value;
      chatMemory := Window(loaded.value, contextMsgs);
      return Success(Render(chatMemory, returnMessages, humanPrefix, aiPrefix, bufferString));
    }

    /** `load_memory_variables`: the buffer under the memory key. */
    method LoadMemoryVariables(inputs: Dict<string>, bufferString: BufferString)
      returns (r: Result<Dict<BufferValue>, Error>)
      requires Valid()
      modifies this`chatMemory, this`logExists
      ensures Valid() && logExists && log == old(log)
      ensures var rep := old(Replayed());
        && (rep.Failure? ==> r == Failure(LoadFailed(rep.error)) && chatMemory == old(chatMemory))
        && (rep.Success? ==>
              && chatMemory == Window(rep.value, contextMsgs) && r.Success?
              && Keys(r.value) == MemoryVariables()
              && Lookup(r.value, memoryKey) == Some(Render(chatMemory, returnMessages, humanPrefix, aiPrefix, bufferString)))
    {
      var b := Buffer(bufferString);
      if b.Failure? {
        return Failure(b.error);
      }
      return Success(Singleton(memoryKey, b.value));
    }

    /**
     * `save_context`: appends the human message, then the AI message, then
     * writes the whole live history to the log. A missing output value is
     * only noticed after the human message was appended.
     */
    method SaveContext(inputs: Dict<string>, outputs: Dict<string>, promptInputKey: PromptInputKey)
      returns (r: Result<(), Error>)
      requires Valid()
      modifies this`chatMemory, this`log, this`logExists
      ensures Valid()
      ensures var keys := old(TurnKeys(inputs, outputs, promptInputKey));
        keys.Failure? ==> r == Failure(keys.error) && chatMemory == old(chatMemory)
      ensures var keys := old(TurnKeys(inputs, outputs, promptInputKey));
        keys.Success? && Lookup(inputs, keys.value.0).None? ==>
          r == Failure(MissingKey(keys.value.0)) && chatMemory == old(chatMemory)
      ensures var keys := old(TurnKeys(inputs, outputs, promptInputKey));
        keys.Success? && Lookup(inputs, keys.value.0).Some? && Lookup(outputs, keys.value.1).None? ==>
          && r == Failure(MissingKey(keys.value.1))
          && chatMemory == old(chatMemory) + [HumanMessage(Lookup(inputs, keys.value.0).value)]
      ensures var keys := old(TurnKeys(inputs, outputs, promptInputKey));
        keys.Success? && Lookup(inputs, keys.value.0).Some? && Lookup(outputs, keys.value.1).Some? ==>
          && r.Success?
          && chatMemory == old(chatMemory) + [HumanMessage(Lookup(inputs, keys.value.0).value),
                                              AIMessage(Lookup(outputs, keys.value.1).value)]
      ensures r.Failure? ==> log == old(log) && logExists == old(logExists)
      ensures r.Success? ==> logExists && log == old(log) + Serialize(chatMemory)
    {
      var keys := ResolveKeys(inputKey, outputKey, inputs, outputs, MemoryVariables(), promptInputKey);
      if keys.Failure? {
        return Failure(keys.error);
      }
      var (ik, ok) := keys.value;
      var input := Lookup(inputs, ik);
      if input.None? {
        return Failure(MissingKey(ik));
      }
      chatMemory := chatMemory + [HumanMessage(input.value)];
      var output := Lookup(outputs, ok);
      if output.None? {
        return Failure(MissingKey(ok));
      }
      chatMemory := chatMemory + [AIMessage(output.value)];
      AppendTwo(old(chatMemory), HumanMessage(input.value), AIMessage(output.value));
      WriteMessages();
      return Success(());
    }

    /**
     * `add_score`: replaces the live history by the whole replayed log, sets
     * `score` in the last message's kwargs and appends the amended history
     * to the log.
     */
    method AddScore(score: Value) returns (r: Result<(), Error>)
      requires Valid()
      modifies this`chatMemory, this`log, this`logExists
      ensures Valid() && logExists
      ensures var rep := old(Replayed());
        && (rep.Failure? ==> r == Failure(LoadFailed(rep.error)) && chatMemory == old(chatMemory) && log == old(log))
        && (rep.Success? && rep.value == [] ==> r == Failure(EmptyHistory) && chatMemory == [] && log == old(log))
        && (rep.Success? && rep.value != [] ==>
              && r.Success? && chatMemory == ScoreLast(rep.value, score)
              && log == old(log) + Serialize(chatMemory))
    {
      var loaded := LoadMessages();
      if loaded.Failure? {
        return Failure(loaded.error);
      }
      chatMemory := loaded.value;
      if chatMemory == [] {
        return Failure(EmptyHistory);
      }
      chatMemory := ScoreLast(chatMemory, score);
      WriteMessages();
      return Success(());
    }
  }
}
