# Conversation buffer memories, modelled in Dafny

This project models the conversation memories of `langchain/memory/buffer.py`:

- `ConversationBufferMemory`: a read-only view of a message history. It returns the messages themselves or their rendering as one string.
- `ConversationStringBufferMemory`: keeps the whole conversation as one growing string.
  - Construction is refused when `return_messages` is set.
  - `save_context` appends a `Human: ...` line and an `AI: ...` line.
- `SerializingConversationMemory`: mirrors its live history into an append-only log file of JSON records.
  - Every read replays the whole log and keeps a window of it: for positive `context_msgs`, the newest `context_msgs` messages.
  - `add_score` replays the log, sets `score` in the last message's `additional_kwargs` and appends the amended history.

## How the code behaves

- Each `_write_messages` call appends the whole live history, not only the new turn. The log therefore holds every history ever written, one after another, and replaying it repeats earlier messages.
- For positive `context_msgs`, a read keeps only the newest `context_msgs` messages of the replay. A `context_msgs` of 0 keeps every message, and a negative one drops the oldest `-context_msgs` (`Memory.Window`).
  - Suppose the log ends with the records of the live history, as after every successful `save_context` or `add_score`, and 1 <= `context_msgs` <= the length of that history. Then the read shows only live messages. `MemoryProperties.ReadSeesLiveHistory` states this.
  - A failed save breaks that assumption. When the output value is missing, `save_context` has already appended the human message to the live history and then raises `KeyError` before writing the log. The next read rebuilds the history from the log, which lacks that message, so it can show messages that are not live.
  - When `context_msgs` is larger, the window reaches into earlier copies, and a read can show the same turn twice. Example with the default `context_msgs = 4`: save one turn to an empty log, then call `add_score`. The log replays to the turn followed by its scored copy, and the next read returns both. `MemoryProperties.ScoreShowsHistoryTwice` states this.
- `save_context` does not append only the two new records, and `add_score` does not rewrite the file: both append the whole live history in mode `"a"`.

## Modules

- `Wrappers`: `Option` and `Result`.
- `Dicts`: Python dictionaries with string keys, as insertion-ordered association lists with distinct keys.
- `Text`: `str.strip`, `str.split("\n")`, `"\n".join` and line-by-line writing.
- `Json`: the record layout `json.dumps` writes, and a decoder that accepts that layout with the escape rules of `json.loads`. Covered:
  - `ensure_ascii` escapes, including surrogate pairs;
  - integers;
  - `null`, `true` and `false`;
  - objects.
- `Messages`: message kinds, their `type` tags, and the score update.
- `ChatLog`: the log text `_write_messages` produces, and the replay loop of `_load_messages`.
- `Memory`: key resolution, the `[-k:]` window, and the three classes.
  - The log file is two fields: `logExists` and `log` (the whole text of the file).
  - Methods that change a memory are imperative methods on a class with `modifies` frames.
- `MemoryProperties`: several calls taken together.
  - What a read shows after saves and scores.
  - Reading twice gives the same result.
  - A failed save changes nothing.
  - What the string buffer holds after two turns.

## Model

| member | source | states |
|---|---|---|
| Dicts.Keys | langchain/memory/buffer.py:84 | the keys of a dictionary, in insertion order, one per entry |
| Dicts.Lookup | langchain/memory/buffer.py:87-88 | `d[k]` is absent exactly when no entry has key `k`; otherwise it is the value of an entry with that key |
| Dicts.Put | langchain/memory/buffer.py:169 | after `d[k] = v`, `k` maps to `v` and every other key keeps its value; a new key goes at the end; an existing key keeps the key order |
| Dicts.Singleton | langchain/memory/buffer.py:41 | `{k: v}` has the single key `k`, mapped to `v` |
| Text.StripStart | langchain/memory/buffer.py:128 | the result is a suffix of the text that does not start with white space, and every character removed is white space |
| Text.StripEnd | langchain/memory/buffer.py:128 | the result is a prefix of the text that does not end with white space, and every character removed is white space |
| Text.Strip | langchain/memory/buffer.py:128 | `strip()` yields a contiguous part of the text that neither starts nor ends with white space, and only white space lies before and after it |
| Text.StripBlank | langchain/memory/buffer.py:128-130 | a text made only of white space strips to the empty text |
| Text.StripFinalNewline | langchain/memory/buffer.py:128 | stripping removes a final newline after visible text and nothing else |
| Text.Split | langchain/memory/buffer.py:131 | `split("\n")` yields at least one piece, and no piece contains a newline |
| Text.Join | langchain/memory/buffer.py:89 | the length of `"\n".join(lines)` is the lines' total length plus one separator between each two consecutive lines; `Text.SplitJoin` and `Text.JoinSplit` state that it inverts the split |
| Text.SplitSingle | langchain/memory/buffer.py:131 | a text without newlines splits into itself alone |
| Text.SplitAppend | langchain/memory/buffer.py:131 | appending a newline and a newline-free line adds exactly that line to the split |
| Text.SplitJoin | langchain/memory/buffer.py:131 | splitting undoes `"\n".join` of newline-free lines |
| Text.JoinSplit | langchain/memory/buffer.py:131 | joining with newlines undoes splitting at newlines |
| Text.LinesIsJoin | langchain/memory/buffer.py:147-149 | writing each line followed by a newline gives the joined lines plus one final newline |
| Text.LinesAppend | langchain/memory/buffer.py:146-149 | writing lines `a` and then lines `b` gives the text of writing `a + b` |
| Text.StripSplitLines | langchain/memory/buffer.py:128-131 | newline-terminated lines that start and end with visible characters strip and split back to exactly those lines |
| Json.HexDigitValue | langchain/memory/buffer.py:132 | a hex digit written for `d` reads back as `d` |
| Json.Hex4RoundTrip | langchain/memory/buffer.py:132 | the four hex digits of a `\uXXXX` escape read back as the code unit written |
| Json.SurrogatesRoundTrip | langchain/memory/buffer.py:132 | the surrogate pair written for a code point above U+FFFF combines back to that code point |
| Json.EscapeChar | langchain/memory/buffer.py:149 | the escaped form of a character is non-empty and contains no raw newline |
| Json.Quote | langchain/memory/buffer.py:149 | a JSON string is wrapped in quotes and contains no raw newline |
| Json.EscapeCharRoundTrip | langchain/memory/buffer.py:132 | decoding the escape of any character yields that character, then continues with what follows |
| Json.CharsRoundTrip | langchain/memory/buffer.py:132 | decoding the escaped text of a string up to its closing quote yields the string and the rest of the input |
| Json.StringRoundTrip | langchain/memory/buffer.py:132 | a quoted JSON string decodes to the original string, leaving the rest of the input |
| Json.NatText | langchain/memory/buffer.py:149 | a natural number is written as digits only, without a leading zero unless it is zero |
| Json.NatRoundTrip | langchain/memory/buffer.py:132 | the digits written for a natural number read back as that number when no digit follows |
| Json.IntRoundTrip | langchain/memory/buffer.py:132 | the text written for any integer, including its minus sign, reads back as that integer |
| Json.ValueRoundTrip | langchain/memory/buffer.py:132 | every kwargs value (null, boolean, integer or string) decodes to itself |
| Json.EncodeMembers | langchain/memory/buffer.py:149 | the members of a non-empty object start with a quoted key, and the text contains no raw newline |
| Json.EncodeObject | langchain/memory/buffer.py:149 | an object is written between braces, without a raw newline |
| Json.MembersRoundTrip | langchain/memory/buffer.py:132 | the members of a dictionary decode to that dictionary in the same key order |
| Json.ObjectRoundTrip | langchain/memory/buffer.py:132 | a written `kwargs` object decodes to the same dictionary, leaving the rest of the input |
| Json.EncodeRecord | langchain/memory/buffer.py:148-149 | a record is one line between `{` and `}` with no raw newline in it |
| Json.DecodeRecord | langchain/memory/buffer.py:132-140 | `json.loads` of an empty or blank line raises; any record it accepts starts with `{"type": `; `Json.RecordRoundTrip` states that it recovers every written record |
| Json.RecordRoundTrip | langchain/memory/buffer.py:132 | `json.loads` of the record `json.dumps` wrote gives back the same type, content and kwargs |
| Messages.TypeTag | langchain/memory/buffer.py:133-140 | the `type` a message records is one the replay dispatch recognises, and it selects that kind |
| Messages.FindTag | langchain/memory/buffer.py:133-140 | a kind found for a tag is listed in the table with that tag |
| Messages.KindOfTag | langchain/memory/buffer.py:133-140 | a kind is selected only for a tag the dispatch lists with that kind, and no kind is selected exactly when the tag is none of `human`, `ai`, `system` and `chat` |
| Messages.TagRoundTrip | langchain/memory/buffer.py:133-140 | a tag selects kind `k` if and only if it is the tag `k` writes |
| Messages.HumanMessage | langchain/memory/buffer.py:163 | `add_user_message` adds a message recorded with type `human`, the given content and no kwargs |
| Messages.AIMessage | langchain/memory/buffer.py:164 | `add_ai_message` adds a message recorded with type `ai`, the given content and no kwargs |
| Messages.WithScore | langchain/memory/buffer.py:169 | setting `score` changes only the `score` entry of the kwargs; kind and content stay the same |
| Messages.ScoreLast | langchain/memory/buffer.py:169 | scoring changes only the last message of the history; the length and every earlier message stay the same |
| ChatLog.EncodeMessage | langchain/memory/buffer.py:148-149 | the line written for a message contains no newline and starts with `{` and ends with `}` |
| ChatLog.Records | langchain/memory/buffer.py:147-149 | one record line per message, in history order |
| ChatLog.Serialize | langchain/memory/buffer.py:145-149 | the text written is empty exactly when the history is empty |
| ChatLog.ReplayLine | langchain/memory/buffer.py:132-142 | a line that loads appends exactly one message and keeps every earlier one |
| ChatLog.ReplayLines | langchain/memory/buffer.py:131-142 | a replay that succeeds yields one message per line |
| ChatLog.ReplayThrough | langchain/memory/buffer.py:131-142 | replaying through the last line also yields one message per line |
| ChatLog.LoadLogLines | langchain/memory/buffer.py:126-143 | an empty or blank log loads as the empty history; otherwise a successful load yields one message per line of the stripped log |
| ChatLog.ReadLog | langchain/memory/buffer.py:126-143 | the strip, split and replay of an existing log computes exactly its specification `LoadLog` |
| ChatLog.ReplayLog | langchain/memory/buffer.py:131-142 | the replay loop returns what replaying all lines gives, stopping at the first line that raises |
| ChatLog.ReplayFailurePersists | langchain/memory/buffer.py:131-142 | once a line raises, the whole load raises with that line's error |
| ChatLog.MalformedLineRaises | langchain/memory/buffer.py:131-132 | when every earlier line loaded, a line `json.loads` rejects makes the whole load raise with that line's error |
| ChatLog.MalformedLineIsFatal | langchain/memory/buffer.py:131-132 | any line `json.loads` rejects makes the whole load raise; no line is skipped |
| ChatLog.UnknownFirstTagIsFatal | langchain/memory/buffer.py:133-142 | when the first record's `type` matches no branch, `msg` is unbound and the load raises |
| ChatLog.UnknownTagRepeatsPrevious | langchain/memory/buffer.py:133-142 | when a later record's `type` matches no branch, the previous message is appended once more |
| ChatLog.KnownTagAppends | langchain/memory/buffer.py:133-142 | a record with a known `type` appends a message of that kind with the record's content and kwargs |
| ChatLog.BlankLogIsEmpty | langchain/memory/buffer.py:128-130 | an empty or white-space-only log loads as the empty history |
| ChatLog.MessageRoundTrip | langchain/memory/buffer.py:132-142 | replaying the line written for a message appends exactly that message |
| ChatLog.ReplayRecords | langchain/memory/buffer.py:131-142 | replaying the records of a history rebuilds that history |
| ChatLog.LoadSerialize | langchain/memory/buffer.py:126-143 | loading the text written for a history gives back that history |
| ChatLog.SerializeStep | langchain/memory/buffer.py:147-149 | each loop iteration adds one record and one newline |
| ChatLog.SerializeAppend | langchain/memory/buffer.py:146-149 | the text for `a` followed by the text for `b` is the text for `a + b` |
| ChatLog.LoadAfterAppend | langchain/memory/buffer.py:146 | appending the text for `b` to a log written for `a` makes it load as `a + b`, so nothing written is lost or reordered |
| Memory.ResolveKeys | langchain/memory/buffer.py:153-162 | fails exactly when no input key can be found, or when no output key is configured and there is not exactly one output. No input key gives the prompt-key error; otherwise the failure names the output keys. On success the configured input key wins, else the chosen prompt key; the configured output key wins, else the only output key |
| Memory.Window | langchain/memory/buffer.py:110 | `h[-k:]` is a suffix of `h`: the newest `k` messages for positive `k`, all of them for `k == 0`, and all but the first `-k` for negative `k` |
| Memory.WindowOfAppend | langchain/memory/buffer.py:110 | when the newest `k` messages all lie in `b`, the window of `a + b` is the window of `b` |
| Memory.WindowTwice | langchain/memory/buffer.py:110 | for `k >= 0`, applying the window twice is the same as applying it once |
| Memory.WindowNegativeShrinks | langchain/memory/buffer.py:110 | for negative `k`, every read removes at least one message from a non-empty history |
| Memory.Render | langchain/memory/buffer.py:22-29 | the messages themselves exactly when `return_messages` is set, otherwise `get_buffer_string` of them with the two prefixes |
| Memory.ConversationBufferMemory.constructor | langchain/memory/buffer.py:15-17 | the prefixes, memory key, `return_messages` and history are the given ones |
| Memory.ConversationBufferMemory.MemoryVariables | langchain/memory/buffer.py:31-37 | the only memory variable is the memory key |
| Memory.ConversationBufferMemory.Buffer | langchain/memory/buffer.py:19-29 | returns the history itself exactly when `return_messages` is set, otherwise its rendering with the two prefixes |
| Memory.ConversationBufferMemory.LoadMemoryVariables | langchain/memory/buffer.py:39-41 | one entry, keyed by the memory key, holding the buffer |
| Memory.ValidateChains | langchain/memory/buffer.py:55-62 | fails exactly when `return_messages` is set, and otherwise returns the settings unchanged |
| Memory.TurnText | langchain/memory/buffer.py:89 | the text appended is a newline, the human line, a newline, then the AI line |
| Memory.SaveAddsTwoLines | langchain/memory/buffer.py:87-89 | each saved turn adds exactly two lines, the human line and the AI line, to the buffer's lines |
| Memory.ConversationStringBufferMemory.constructor | langchain/memory/buffer.py:47-53 | the fields take the validated settings |
| Memory.ConversationStringBufferMemory.Create | langchain/memory/buffer.py:55-62 | construction fails exactly when `return_messages` is set; otherwise the new memory holds the given settings |
| Memory.ConversationStringBufferMemory.MemoryVariables | langchain/memory/buffer.py:64-69 | the only memory variable is the memory key |
| Memory.ConversationStringBufferMemory.LoadMemoryVariables | langchain/memory/buffer.py:71-73 | one entry, keyed by the memory key, holding the buffer string |
| Memory.ConversationStringBufferMemory.SaveContext | langchain/memory/buffer.py:75-89 | on success the buffer becomes the old buffer followed by the two prefixed lines; it fails on a key error or a missing value, and any failure leaves the buffer unchanged |
| Memory.ConversationStringBufferMemory.Clear | langchain/memory/buffer.py:91-93 | the buffer becomes empty |
| Memory.SerializingConversationMemory.constructor | langchain/memory/buffer.py:100-104 | the settings are the given ones, the live history is empty, and the log file is the given initial file |
| Memory.SerializingConversationMemory.MemoryVariables | langchain/memory/buffer.py:172-178 | the only memory variable is the memory key |
| Memory.SerializingConversationMemory.LoadMessages | langchain/memory/buffer.py:120-143 | a missing log is created empty and loads as the empty history; an existing log yields its replay; the log text never changes |
| Memory.SerializingConversationMemory.WriteMessages | langchain/memory/buffer.py:145-149 | the log becomes the old log followed by the records of the whole live history |
| Memory.SerializingConversationMemory.Buffer | langchain/memory/buffer.py:106-119 | if the log replays, the live history becomes the newest `context_msgs` messages of the replay, and those messages or their rendering are returned; if it does not, the read fails and the history is unchanged; the log text is never written |
| Memory.SerializingConversationMemory.LoadMemoryVariables | langchain/memory/buffer.py:180-182 | one entry under the memory key, holding the buffer, with the same effect on the history as `buffer` |
| Memory.SerializingConversationMemory.SaveContext | langchain/memory/buffer.py:151-165 | see below the table |
| Memory.SerializingConversationMemory.AddScore | langchain/memory/buffer.py:167-170 | see below the table |
| MemoryProperties.ReadSeesLiveHistory | langchain/memory/buffer.py:106-110 | a log holding earlier histories and then the live one replays to all of them in order, and a window no wider than the live history shows only live messages |
| MemoryProperties.ScoreThenRead | langchain/memory/buffer.py:167-170 | after scoring, the log replays to the old history followed by the scored copy, and the newest message read back carries the score |
| MemoryProperties.ScoreShowsHistoryTwice | langchain/memory/buffer.py:110 | when the window is at least twice the history, a read after scoring returns the history followed by its scored copy |
| MemoryProperties.ReadTwice | langchain/memory/buffer.py:106-119 | two reads in a row return the same value, and they succeed exactly when the log replays |
| MemoryProperties.AmbiguousOutputChangesNothing | langchain/memory/buffer.py:157-159 | with no output key and two outputs, saving fails naming both keys; no message is appended and the log is untouched |
| MemoryProperties.StringBufferTwoTurns | langchain/memory/buffer.py:75-89 | from the defaults, two turns leave `"\nHuman: i1\nAI: o1\nHuman: i2\nAI: o2"` |

`Memory.SerializingConversationMemory.SaveContext`:

- If key resolution fails, it fails with that error and changes nothing.
- If the input value is missing, it fails and changes nothing.
- If the output value is missing, it fails after the human message was appended.
- Otherwise it appends the human and AI messages, and the log gains the records of the whole history.
- On failure the log is untouched.

`Memory.SerializingConversationMemory.AddScore`:

- If the log does not replay, it fails and changes nothing.
- If the replay is empty, it fails with the history emptied.
- Otherwise the history is the replay with the last message scored, and the log gains that whole history.

## Left out

- Files and I/O:
  - Real file-system behaviour is not modelled: the `chat_log_file` path, `Path.exists`, `touch`, opening, I/O errors and partial writes. The file is the two fields `logExists` and `log`.
  - Concurrent writers and readers sharing one log are not modelled, nor how their appends interleave.
- Collaborators:
  - `get_prompt_input_key` and `get_buffer_string` are defined outside `buffer.py`. The model takes them as function parameters, and `None` from the first stands for the exception it raises.
  - The methods the classes inherit from `BaseChatMemory` and `BaseMemory` are not part of this model. `prompt.py` and `__init__.py` are not part of it either.
  - Pydantic's field handling is not modelled beyond the `validate_chains` check.
  - The fields `ConversationStringBufferMemory` takes from its settings are written out as a datatype.
- Inputs and values:
  - `inputs` and `outputs` are dictionaries of strings. Other value types, and how a `str` is concatenated with a non-string value, are not modelled.
  - A message's `additional_kwargs` hold only null, booleans, integers and strings. Floats, lists and nested objects are not modelled.
  - The score is one of these values.
  - Python strings that hold lone surrogates are not modelled: Dafny characters are Unicode scalar values.
- Json.DecodeRecord: accepts only the layout `json.dumps` writes: keys in the order `type`, `content`, `kwargs`, with its separators. `json.loads` also accepts records laid out differently, for example by hand, and the model reports those as malformed.
- ChatLog.ReplayLine: a `chat` record loads as a chat message without a role. The real `ChatMessage` class requires a role, so in the source every `chat` record makes `_load_messages` raise. `ChatLog.MessageRoundTrip`, `ChatLog.ReplayRecords` and `ChatLog.LoadSerialize` therefore describe the source only for histories without chat messages.
- Memory.SerializingConversationMemory.AddScore: the score is set only on the last entry. After a record with an unknown `type`, the replayed list holds the same message object twice, and setting the score on one of those entries changes the other in Python. This aliasing is not modelled.
