/** The answer built at once, against the assembled stream. */
module OneShotAnswer {
  import opened Wrappers
  import opened JsonValues
  import opened ProtocolErrors
  import opened MessageStream
  import opened ThinkingSignature
  import opened Reducer
  import opened ReducerInvariant
  import opened ReducerRuns

  datatype Content =
    | Text(text: string)
    | Thinking(thinking: string, signature: string)
    | ToolUse(id: string, name: string, input: Json)

  datatype Response = Response(
    id: string, model: string, content: seq<Content>, stopReason: string, inputTokens: nat, outputTokens: nat)

  /** Taking every block out of its table in block order; a block looked up twice would not be found again. */
  function Collect(
    c: Context, texts: map<string, TextState>, reasoning: map<string, ReasoningState>, tools: map<string, ToolState>,
    order: seq<BlockKey>): Result<seq<Content>, ProtocolError>
    decreases |order|
  {
    if order == [] then Ok([])
    else
      match order[0]
      case ReasoningKey(k) =>
        if k !in reasoning then Err(BadUpstream("reasoning state is missing"))
        else if reasoning[k].signature.None? then Err(BadUpstream("reasoning signature is missing"))
        else
          var rest :- Collect(c, texts, reasoning - {k}, tools, order[1..]);
          Ok([Thinking(reasoning[k].text, reasoning[k].signature.value)] + rest)
      case TextKey(k) =>
        if k !in texts then Err(BadUpstream("text state is missing"))
        else
          var rest :- Collect(c, texts - {k}, reasoning, tools, order[1..]);
          Ok([Text(texts[k].text)] + rest)
      case ToolKey(k) =>
        if k !in tools then Err(BadUpstream("tool state is missing"))
        else if c.codec.parse(tools[k].arguments).None? then Err(BadUpstream("tool arguments are invalid"))
        else
          var rest :- Collect(c, texts, reasoning, tools - {k}, order[1..]);
          Ok([ToolUse(tools[k].callId, tools[k].name, c.codec.parse(tools[k].arguments).value)] + rest)
  }

  /** `size` is the length of the encoded answer. */
  function NonstreamResponse(c: Context, s: State, size: Response -> nat): Result<Response, ProtocolError> {
    if !s.completed then Err(Unfinished("upstream stream ended before completion"))
    else if s.estimated > MAX_NONSTREAM_BYTES then Err(TooLarge("nonstream response is too large"))
    else
      var content :- Collect(c, s.texts, s.reasoning, s.tools, s.blockOrder);
      var response := Response(s.messageId, c.model, content, s.stopReason, s.inputTokens, s.outputTokens);
      if size(response) > MAX_NONSTREAM_BYTES then Err(TooLarge("nonstream response is too large"))
      else Ok(response)
  }

  /** How a client reads an assembled block; partial JSON that never came stands for the empty object. */
  function Read(c: Context, b: Block): Option<Content> {
    match b.head
    case TextHead(text) => Some(Text(text + TextOf(b.deltas)))
    case ThinkingHead(thinking, signature) =>
      Some(Thinking(thinking + ThinkingOf(b.deltas), signature + SignatureOf(b.deltas)))
    case ToolHead(id, name) =>
      var json := JsonOf(b.deltas);
      (match c.codec.parse(if json == "" then "{}" else json)
       case None => None
       case Some(input) => Some(ToolUse(id, name, input)))
    case OtherHead(_) => None
  }

  /** What the tables say of one block. */
  function ContentOf(c: Context, s: State, key: BlockKey): Option<Content> {
    match key
    case ReasoningKey(k) =>
      if k in s.reasoning && s.reasoning[k].signature.Some? then
        Some(Thinking(s.reasoning[k].text, s.reasoning[k].signature.value))
      else None
    case TextKey(k) => if k in s.texts then Some(Text(s.texts[k].text)) else None
    case ToolKey(k) =>
      if k in s.tools && c.codec.parse(s.tools[k].arguments).Some? then
        Some(ToolUse(s.tools[k].callId, s.tools[k].name, c.codec.parse(s.tools[k].arguments).value))
      else None
  }

  /** One block of a completed run reads the same from the stream and from the table. */
  lemma BlockAgrees(c: Context, s: State, l: Life, m: Message, i: nat)
    requires Ordered(s) && Ciphered(c, s) && Identified(c, s) && Mirrors(c, s, l, m)
    requires s.active.None? && i < |s.blockOrder|
    ensures i < |m.blocks| && ContentOf(c, s, s.blockOrder[i]).Some?
    ensures Read(c, m.blocks[i]) == ContentOf(c, s, s.blockOrder[i])
  {
    assert Backed(s, i) && ShowsAt(m, s, i);
    match s.blockOrder[i]
    case ReasoningKey(k) =>
      assert Stage(c, s, k);
      assert "" + s.reasoning[k].text == s.reasoning[k].text;
      assert "" + s.reasoning[k].signature.value == s.reasoning[k].signature.value;
    case TextKey(k) =>
      assert "" + s.texts[k].text == s.texts[k].text;
    case ToolKey(k) =>
      assert ToolNamed(c, s, k);
  }

  /** The tables still hold, untouched, the block under a key. */
  ghost predicate HoldsKey(
    s: State, texts: map<string, TextState>, reasoning: map<string, ReasoningState>, tools: map<string, ToolState>,
    key: BlockKey)
  {
    match key
    case ReasoningKey(k) => k in reasoning && k in s.reasoning && reasoning[k] == s.reasoning[k]
    case TextKey(k) => k in texts && k in s.texts && texts[k] == s.texts[k]
    case ToolKey(k) => k in tools && k in s.tools && tools[k] == s.tools[k]
  }

  ghost predicate Holds(
    s: State, texts: map<string, TextState>, reasoning: map<string, ReasoningState>, tools: map<string, ToolState>,
    i: nat)
  {
    forall j: nat | i <= j < |s.blockOrder| :: HoldsKey(s, texts, reasoning, tools, s.blockOrder[j])
  }

  ghost predicate Readable(c: Context, s: State) {
    forall j: nat | j < |s.blockOrder| :: ContentOf(c, s, s.blockOrder[j]).Some?
  }

  /** Block by block, in order, nothing left out. */
  ghost function Contents(c: Context, s: State, i: nat): seq<Content>
    requires Readable(c, s) && i <= |s.blockOrder|
  {
    seq(|s.blockOrder| - i, j requires 0 <= j < |s.blockOrder| - i => ContentOf(c, s, s.blockOrder[i + j]).value)
  }

  lemma {:induction false} CollectIsContents(
      c: Context, s: State,
      texts: map<string, TextState>, reasoning: map<string, ReasoningState>, tools: map<string, ToolState>, i: nat)
    requires Ordered(s) && Identified(c, s) && Readable(c, s) && i <= |s.blockOrder|
    requires Holds(s, texts, reasoning, tools, i)
    ensures Collect(c, texts, reasoning, tools, s.blockOrder[i..]) == Ok(Contents(c, s, i))
    decreases |s.blockOrder| - i
  {
    if i < |s.blockOrder| {
      var key := s.blockOrder[i];
      assert HoldsKey(s, texts, reasoning, tools, key) && ContentOf(c, s, key).Some?;
      assert s.blockOrder[i..][0] == key && s.blockOrder[i..][1..] == s.blockOrder[i + 1..];
      OthersHeld(c, s, texts, reasoning, tools, i);
      CollectIsContents(c, s, if key.TextKey? then texts - {key.id} else texts,
                        if key.ReasoningKey? then reasoning - {key.id} else reasoning,
                        if key.ToolKey? then tools - {key.id} else tools, i + 1);
      assert [ContentOf(c, s, key).value] + Contents(c, s, i + 1) == Contents(c, s, i);
    }
  }

  lemma OthersHeld(
      c: Context, s: State,
      texts: map<string, TextState>, reasoning: map<string, ReasoningState>, tools: map<string, ToolState>, i: nat)
    requires Ordered(s) && Identified(c, s) && i < |s.blockOrder| && Holds(s, texts, reasoning, tools, i)
    ensures
      var key := s.blockOrder[i];
      Holds(s, if key.TextKey? then texts - {key.id} else texts,
            if key.ReasoningKey? then reasoning - {key.id} else reasoning,
            if key.ToolKey? then tools - {key.id} else tools, i + 1)
  {
    var key := s.blockOrder[i];
    var texts' := if key.TextKey? then texts - {key.id} else texts;
    var reasoning' := if key.ReasoningKey? then reasoning - {key.id} else reasoning;
    var tools' := if key.ToolKey? then tools - {key.id} else tools;
    forall j: nat | i + 1 <= j < |s.blockOrder| ensures HoldsKey(s, texts', reasoning', tools', s.blockOrder[j]) {
      assert HoldsKey(s, texts, reasoning, tools, s.blockOrder[j]);
      if s.blockOrder[j].id == key.id {
        DistinctIds(c, s, i, j);
      }
    }
  }

  /** Nothing is missing and nothing differs: the two answers have the same envelope and read the same blocks. */
  ghost predicate SameAnswer(c: Context, r: Response, m: Message) {
    && r.id == m.id && r.model == m.model && m.stopReason == Some(r.stopReason)
    && r.inputTokens == m.inputTokens && r.outputTokens == m.outputTokens
    && |r.content| == |m.blocks|
    && forall i: nat | i < |r.content| :: Read(c, m.blocks[i]) == Some(r.content[i])
  }

  /**
    After every completed run the one-shot answer exists, unless its encoding is over the size limit, and is
    what the emitted events assemble to. It stops for tool use only if it holds a tool call.
   */
  lemma StreamAndAnswerAgree(c: Context, es: seq<UpstreamEvent>, size: Response -> nat)
    requires RunAll(c, es).Ok? && RunAll(c, es).value.state.completed
    ensures
      var e := RunAll(c, es).value;
      var r := NonstreamResponse(c, e.state, size);
      && (r.Err? ==> r.error == TooLarge("nonstream response is too large"))
      && (r.Ok? ==>
        && SameAnswer(c, r.value, Assemble(EmptyMessage, e.out))
        && r.value.content != []
        && (r.value.stopReason == "tool_use" ==> exists i: nat | i < |r.value.content| :: r.value.content[i].ToolUse?))
    ensures
      (forall r: Response :: size(r) <= MAX_NONSTREAM_BYTES) ==> NonstreamResponse(c, RunAll(c, es).value.state, size).Ok?
  {
    RunKeeps(c, es);
    var e := RunAll(c, es).value;
    CompletedAnswer(c, e.state, Run(Initial, e.out).value, Assemble(EmptyMessage, e.out), size);
  }

  lemma CompletedAnswer(c: Context, s: State, l: Life, m: Message, size: Response -> nat)
    requires RunInv(c, s, l, m) && s.completed
    ensures Readable(c, s)
    ensures
      var response := Response(s.messageId, c.model, Contents(c, s, 0), s.stopReason, s.inputTokens, s.outputTokens);
      && NonstreamResponse(c, s, size)
         == (if size(response) > MAX_NONSTREAM_BYTES then Err(TooLarge("nonstream response is too large")) else Ok(response))
      && SameAnswer(c, response, m)
      && response.content != []
      && (s.stopReason == "tool_use" ==> exists i: nat | i < |response.content| :: response.content[i].ToolUse?)
  {
    forall i: nat | i < |s.blockOrder|
      ensures i < |m.blocks| && ContentOf(c, s, s.blockOrder[i]).Some?
      ensures Read(c, m.blocks[i]) == ContentOf(c, s, s.blockOrder[i])
    {
      BlockAgrees(c, s, l, m, i);
    }
    EverythingHeld(s);
    CollectIsContents(c, s, s.texts, s.reasoning, s.tools, 0);
    assert s.blockOrder[0..] == s.blockOrder;
    if s.stopReason == "tool_use" {
      var i := SomeToolBlock(s);
      assert Contents(c, s, 0)[i].ToolUse?;
    }
  }

  lemma EverythingHeld(s: State)
    requires Ordered(s)
    ensures Holds(s, s.texts, s.reasoning, s.tools, 0)
  {
    forall j: nat | j < |s.blockOrder| ensures HoldsKey(s, s.texts, s.reasoning, s.tools, s.blockOrder[j]) {
      assert Backed(s, j);
    }
  }

  lemma SomeToolBlock(s: State) returns (i: nat)
    requires Ordered(s) && Unstarted(s) && !AnyOpen(s) && |s.tools| > 0
    ensures i < |s.blockOrder| && s.blockOrder[i].ToolKey?
  {
    assert s.tools.Keys != {};
    var k :| k in s.tools.Keys;
    assert s.tools[k].closed;
    assert Listed(s, ToolKey(k));
    i := s.tools[k].index.value;
  }
}
