/**
 * Chat messages as the serializing memory stores them: a kind (the
 * message's `type`), the text content and the `additional_kwargs`
 * dictionary.
 */
module Messages {
  import opened Wrappers
  import opened Dicts
  import opened Json

  /** `HumanMessage`, `AIMessage`, `SystemMessage` and `ChatMessage`. */
  datatype Kind = Human | AI | System | Chat

  datatype Message = Message(kind: Kind, content: string, kwargs: Dict<Value>)

  /** The `type` each message class reports, which the log records. */
  function TypeTag(k: Kind): (tag: string)
    ensures KindOfTag(tag) == Some(k)
  {
    match k
    case Human => "human"
    case AI => "ai"
    case System => "system"
    case Chat => "chat"
  }

  /** The `type` tags `_load_messages` recognises, in the order it tests them. */
  const KnownTags: seq<(string, Kind)> := [("human", Human), ("ai", AI), ("system", System), ("chat", Chat)]

  /** The kind of the first entry of `table` whose tag is `tag`. */
  function FindTag(table: seq<(string, Kind)>, tag: string): (k: Option<Kind>)
    ensures k.Some? ==> (tag, k.value) in table
    ensures k.None? <==> forall i :: 0 <= i < |table| ==> table[i].0 != tag
  {
    if table == [] then None
    else if table[0].0 == tag then Some(table[0].1)
    else FindTag(table[1..], tag)
  }

  /** The message class a log record's `type` selects; `None` for any other tag. */
  function KindOfTag(tag: string): (k: Option<Kind>)
    ensures k.Some? ==> (tag, k.value) in KnownTags
    ensures k.None? <==> forall i :: 0 <= i < |KnownTags| ==> KnownTags[i].0 != tag
  {
    FindTag(KnownTags, tag)
  }

  /** Reading a tag back selects exactly the kind that wrote it, and no other tag selects it. */
  lemma TagRoundTrip(k: Kind, tag: string)
    ensures KindOfTag(tag) == Some(k) <==> TypeTag(k) == tag
  {
    if KindOfTag(tag) == Some(k) {
      assert (tag, k) in KnownTags;
    }
  }

  /** `add_user_message`: a human message without extra kwargs. */
  function HumanMessage(content: string): (m: Message)
    ensures TypeTag(m.kind) == "human" && m.content == content && m.kwargs == []
  {
    Message(Human, content, [])
  }

  /** `add_ai_message`: an AI message without extra kwargs. */
  function AIMessage(content: string): (m: Message)
    ensures TypeTag(m.kind) == "ai" && m.content == content && m.kwargs == []
  {
    Message(AI, content, [])
  }

  /** `m.additional_kwargs['score'] = score`. */
  function WithScore(m: Message, score: Value): (r: Message)
    ensures r.kind == m.kind && r.content == m.content
    ensures Lookup(r.kwargs, "score") == Some(score)
    ensures forall k :: k != "score" ==> Lookup(r.kwargs, k) == Lookup(m.kwargs, k)
  {
    m.(kwargs := Put(m.kwargs, "score", score))
  }

  /** `messages[-1].additional_kwargs['score'] = score` on a non-empty history. */
  function ScoreLast(h: seq<Message>, score: Value): (r: seq<Message>)
    requires h != []
    ensures |r| == |h|
    ensures r[..|h| - 1] == h[..|h| - 1]
    ensures r[|h| - 1] == WithScore(h[|h| - 1], score)
  {
    h[|h| - 1 := WithScore(h[|h| - 1], score)]
  }
}
