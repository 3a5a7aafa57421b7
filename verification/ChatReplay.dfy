/** A chat answer turned into a message, replayed as a stream, and fed back as history. */
module ChatReplay {
  import opened Wrappers
  import Sequences
  import opened Utf8
  import opened JsonValues
  import opened JsonSpacing
  import opened ChatSigning
  import opened MessageStream
  import H = ChatHistory

  /** A tool call of the upstream answer, its members read; `isFunction` when its type says so. */
  datatype UpstreamCall = UpstreamCall(isFunction: bool, id: Option<string>, name: Option<string>, arguments: Option<string>)

  datatype Finish = Stop | Length | ToolCalls | OtherFinish

  /** The one choice of an upstream answer, its members read. */
  datatype Upstream = Upstream(
    choices: nat, assistant: bool, refused: bool, finish: Finish, reasoning: Option<string>,
    content: Option<string>, calls: seq<UpstreamCall>, id: Option<string>, inputTokens: nat, outputTokens: nat)

  datatype AnswerBlock =
    | Thinking(thinking: string, signature: string)
    | Text(text: string)
    | Tool(id: string, name: string, input: Json)

  datatype Answer = Answer(
    id: string, model: string, content: seq<AnswerBlock>, stopReason: string, inputTokens: nat, outputTokens: nat)

  datatype Context = Context(signer: ReasoningSigner, target: string, codec: Codec, digestOf: Json -> string)

  /** The same context as the history translator sees it. */
  function ForHistory(c: Context): H.Context {
    H.Context(c.signer, c.target, c.codec.write, c.digestOf)
  }

  // ---------- From the upstream answer ----------

  datatype Mapped = Mapped(bindings: seq<ToolBinding>, tools: seq<AnswerBlock>, seen: set<string>)

  function MapCall(c: Context, m: Mapped, call: UpstreamCall): Result<Mapped, string> {
    if !call.isFunction then Err("OpenAI Chat response tool type is unsupported")
    else if call.id.None? || !ShortToken(c.signer.blank, call.id.value) then Err("OpenAI Chat tool call id is invalid")
    else if call.id.value in m.seen then Err("OpenAI Chat tool call id is duplicated")
    else if call.name.None? || !ShortToken(c.signer.blank, call.name.value) then Err("OpenAI Chat tool name is invalid")
    else if call.arguments.None? then Err("OpenAI Chat tool arguments are invalid")
    else if ByteLen(call.arguments.value) > MAX_REASONING_BYTES then Err("OpenAI Chat tool arguments are too large")
    else
      match c.codec.parse(call.arguments.value)
      case None => Err("OpenAI Chat tool arguments are invalid")
      case Some(input) =>
        if !input.JObject? then Err("OpenAI Chat tool arguments must be a JSON object")
        else
          Ok(Mapped(m.bindings + [ToolBinding(call.id.value, call.name.value, c.digestOf(input))],
                    m.tools + [Tool(call.id.value, call.name.value, input)], m.seen + {call.id.value}))
  }

  function MapCalls(c: Context, calls: seq<UpstreamCall>): Result<Mapped, string> {
    if calls == [] then Ok(Mapped([], [], {}))
    else
      var before :- MapCalls(c, calls[..|calls| - 1]);
      MapCall(c, before, calls[|calls| - 1])
  }

  function StopReason(finish: Finish): Option<string> {
    match finish
    case Stop => Some("end_turn")
    case Length => Some("max_tokens")
    case ToolCalls => Some("tool_use")
    case OtherFinish => None
  }

  function NonEmpty(s: Option<string>): Option<string> {
    if s == Some("") then None else s
  }

  function ContentOf(reasoning: Option<string>, signature: string, content: Option<string>, tools: seq<AnswerBlock>): seq<AnswerBlock> {
    (if reasoning.Some? then [Thinking(reasoning.value, signature)] else [])
    + (if content.Some? then [Text(content.value)] else [])
    + tools
  }

  /** Seals the reasoning, if there is any, with the calls it led to. */
  function Sealed(c: Context, reasoning: Option<string>, bindings: seq<ToolBinding>): Result<string, string> {
    if reasoning.None? then Ok("")
    else
      match c.signer.Seal(c.target, reasoning.value, bindings)
      case None => Err("OpenAI Chat reasoning signature is invalid")
      case Some(signature) => Ok(signature)
  }

  function AnswerOf(c: Context, model: string, up: Upstream, mapped: Mapped): Result<Answer, string> {
    var reasoning, content := NonEmpty(up.reasoning), NonEmpty(up.content);
    if up.finish.ToolCalls? != (mapped.tools != []) then Err("OpenAI Chat finish reason and tool calls disagree")
    else
      var signature :- Sealed(c, reasoning, mapped.bindings);
      var blocks := ContentOf(reasoning, signature, content, mapped.tools);
      if blocks == [] then Err("OpenAI Chat response message has no content")
      else if up.id.None? || !ShortToken(c.signer.blank, up.id.value) then Err("OpenAI Chat response id is invalid")
      else if StopReason(up.finish).None? then Err("OpenAI Chat finish reason is unsupported")
      else Ok(Answer(up.id.value, model, blocks, StopReason(up.finish).value, up.inputTokens, up.outputTokens))
  }

  function ToAnthropic(c: Context, model: string, up: Upstream): Result<Answer, string> {
    if up.choices != 1 then Err("OpenAI Chat response must contain exactly one choice")
    else if !up.assistant then Err("OpenAI Chat response role is invalid")
    else if up.refused then Err("OpenAI Chat response was refused")
    else if StopReason(up.finish).None? then Err("OpenAI Chat finish reason is unsupported")
    else if NonEmpty(up.reasoning).Some? && ByteLen(up.reasoning.value) > MAX_REASONING_BYTES then
      Err("OpenAI Chat reasoning content is too large")
    else if |up.calls| > MAX_TOOL_CALLS then Err("OpenAI Chat response has too many tool calls")
    else
      var mapped :- MapCalls(c, up.calls);
      AnswerOf(c, model, up, mapped)
  }

  method MapAllCalls(c: Context, calls: seq<UpstreamCall>) returns (r: Result<Mapped, string>)
    ensures r == MapCalls(c, calls)
  {
    var mapped := Mapped([], [], {});
    for i := 0 to |calls|
      invariant MapCalls(c, calls[..i]) == Ok(mapped)
    {
      assert calls[..i + 1][..i] == calls[..i];
      var next := MapCall(c, mapped, calls[i]);
      if next.Err? {
        MapFails(c, calls, i + 1);
        return Err(next.error);
      }
      mapped := next.value;
    }
    assert calls[..|calls|] == calls;
    r := Ok(mapped);
  }

  lemma {:induction false} MapFails(c: Context, calls: seq<UpstreamCall>, i: nat)
    requires i <= |calls| && MapCalls(c, calls[..i]).Err?
    ensures MapCalls(c, calls) == MapCalls(c, calls[..i])
    decreases |calls| - i
  {
    if i == |calls| {
      assert calls[..i] == calls;
    } else {
      assert calls[..i + 1][..i] == calls[..i];
      MapFails(c, calls, i + 1);
    }
  }

  method OpenaiToAnthropic(c: Context, model: string, up: Upstream) returns (r: Result<Answer, string>)
    ensures r == ToAnthropic(c, model, up)
  {
    if up.choices != 1 {
      return Err("OpenAI Chat response must contain exactly one choice");
    }
    if !up.assistant {
      return Err("OpenAI Chat response role is invalid");
    }
    if up.refused {
      return Err("OpenAI Chat response was refused");
    }
    if StopReason(up.finish).None? {
      return Err("OpenAI Chat finish reason is unsupported");
    }
    if NonEmpty(up.reasoning).Some? && ByteLen(up.reasoning.value) > MAX_REASONING_BYTES {
      return Err("OpenAI Chat reasoning content is too large");
    }
    if |up.calls| > MAX_TOOL_CALLS {
      return Err("OpenAI Chat response has too many tool calls");
    }
    var mapped := MapAllCalls(c, up.calls);
    if mapped.Err? {
      return Err(mapped.error);
    }
    r := AnswerOf(c, model, up, mapped.value);
  }

  // ---------- The replayed stream ----------

  function ReplayBlock(c: Context, b: AnswerBlock): Block {
    match b
    case Tool(id, name, input) => Block(ToolHead(id, name), [InputJsonDelta(Spaced(c.codec.write(input)))])
    case Thinking(thinking, signature) =>
      Block(ThinkingHead("", ""), [ThinkingDelta(thinking), SignatureDelta(signature)])
    case Text(text) => Block(TextHead(""), [TextDelta(text)])
  }

  function ReplayBlocks(c: Context, content: seq<AnswerBlock>): seq<Block> {
    seq(|content|, i requires 0 <= i < |content| => ReplayBlock(c, content[i]))
  }

  /** Usage in message_delta has no input count; it stays what message_start said. */
  function ReplayEvents(c: Context, a: Answer): seq<Event> {
    [MessageStart(a.id, a.model, a.inputTokens), Ping]
    + Blocks(ReplayBlocks(c, a.content))
    + [MessageDelta(Some(a.stopReason), a.inputTokens, a.outputTokens), MessageStop]
  }

  method ReplayAsSseEvents(c: Context, a: Answer) returns (events: seq<Event>)
    ensures events == ReplayEvents(c, a)
  {
    var front := [MessageStart(a.id, a.model, a.inputTokens), Ping];
    events := front;
    for i := 0 to |a.content|
      invariant events == front + Blocks(ReplayBlocks(c, a.content[..i]))
    {
      var one := ReplayOne(c, i, a.content[i]);
      NextBlock(c, a.content, i);
      Sequences.Associate(front, Blocks(ReplayBlocks(c, a.content[..i])), one);
      events := events + one;
    }
    assert a.content[..|a.content|] == a.content;
    events := events + [MessageDelta(Some(a.stopReason), a.inputTokens, a.outputTokens), MessageStop];
  }

  method ReplayOne(c: Context, i: nat, b: AnswerBlock) returns (events: seq<Event>)
    ensures events == BlockEvents(i, ReplayBlock(c, b))
  {
    match b {
      case Tool(id, name, input) =>
        var json := DumpPythonStyle(c.codec.write(input));
        events := [BlockStart(i, ToolHead(id, name)), BlockDelta(i, InputJsonDelta(json))];
      case Thinking(thinking, signature) =>
        events := [BlockStart(i, ThinkingHead("", "")), BlockDelta(i, ThinkingDelta(thinking)),
                   BlockDelta(i, SignatureDelta(signature))];
      case Text(text) =>
        events := [BlockStart(i, TextHead("")), BlockDelta(i, TextDelta(text))];
    }
    events := events + [BlockStop(i)];
  }

  lemma NextBlock(c: Context, content: seq<AnswerBlock>, i: nat)
    requires i < |content|
    ensures Blocks(ReplayBlocks(c, content[..i + 1])) == Blocks(ReplayBlocks(c, content[..i])) + BlockEvents(i, ReplayBlock(c, content[i]))
  {
    var blocks := ReplayBlocks(c, content[..i + 1]);
    assert blocks[..i] == ReplayBlocks(c, content[..i]);
  }

  /** Content as a client reads it back; none if a tool's input is not JSON. */
  function ReadBack(codec: Codec, b: Block): Option<AnswerBlock> {
    match b.head
    case TextHead(text) => Some(Text(text + TextOf(b.deltas)))
    case ThinkingHead(thinking, signature) =>
      Some(Thinking(thinking + ThinkingOf(b.deltas), signature + SignatureOf(b.deltas)))
    case ToolHead(id, name) =>
      (match codec.parse(JsonOf(b.deltas)) case None => None case Some(input) => Some(Tool(id, name, input)))
    case OtherHead(_) => None
  }

  /** A tool's input is a value that was read. */
  ghost predicate InputRead(c: Context, b: AnswerBlock) {
    b.Tool? ==> c.codec.Reads(b.input)
  }

  lemma BlockReadsBack(c: Context, b: AnswerBlock)
    requires c.codec.Lawful() && IgnoresSpacing(c.codec.parse) && InputRead(c, b)
    ensures ReadBack(c.codec, ReplayBlock(c, b)) == Some(b)
  {
    var ds := ReplayBlock(c, b).deltas;
    match b
    case Tool(id, name, input) =>
      var read :| c.codec.parse(read) == Some(input);
      assert c.codec.parse(c.codec.write(c.codec.parse(read).value)) == Some(input);
      SpacedReadsTheSame(c.codec.parse, c.codec.write(input));
      assert ds[..0] == [] && JsonOf(ds) == "" + ds[0].json;
      assert "" + ds[0].json == ds[0].json;
    case Text(text) =>
      assert ds[..0] == [] && TextOf(ds) == "" + text;
      assert "" + ("" + text) == text;
    case Thinking(thinking, signature) =>
      assert ds[..1] == [ds[0]] && [ds[0]][..0] == [];
      assert ThinkingOf([ds[0]]) == "" + thinking && ThinkingOf(ds) == ThinkingOf([ds[0]]) + "";
      assert SignatureOf([ds[0]]) == "" + "" && SignatureOf(ds) == SignatureOf([ds[0]]) + signature;
      assert "" + thinking == thinking && thinking + "" == thinking && "" + "" == "" && "" + signature == signature;
  }

  /** What an answer replays to is accepted, and a client assembles the answer from it again. */
  lemma ReplayAssembles(c: Context, a: Answer)
    requires c.codec.Lawful() && IgnoresSpacing(c.codec.parse) && |a.content| <= MAX_INDEX
    requires forall i | 0 <= i < |a.content| :: InputRead(c, a.content[i])
    ensures Accepted(ReplayEvents(c, a))
    ensures
      var m := Assemble(EmptyMessage, ReplayEvents(c, a));
      && m == Message(a.id, a.model, m.blocks, Some(a.stopReason), a.inputTokens, a.outputTokens)
      && |m.blocks| == |a.content|
      && forall i | 0 <= i < |a.content| :: ReadBack(c.codec, m.blocks[i]) == Some(a.content[i])
  {
    var blocks := ReplayBlocks(c, a.content);
    ReplayRuns(c, a);
    forall i | 0 <= i < |a.content| ensures ReadBack(c.codec, blocks[i]) == Some(a.content[i]) {
      BlockReadsBack(c, a.content[i]);
    }
  }

  /** The calls of an upstream answer become tools whose inputs were read. */
  lemma {:induction false} MappedInputsRead(c: Context, calls: seq<UpstreamCall>)
    requires MapCalls(c, calls).Ok?
    ensures
      var tools := MapCalls(c, calls).value.tools;
      |tools| == |calls| && forall i | 0 <= i < |tools| :: InputRead(c, tools[i])
  {
    if calls != [] {
      MappedInputsRead(c, calls[..|calls| - 1]);
      var call := calls[|calls| - 1];
      assert c.codec.parse(call.arguments.value).Some?;
    }
  }

  /** So every answer made from an upstream one is assembled again from its replay. */
  lemma UpstreamAnswerAssembles(c: Context, model: string, up: Upstream)
    requires c.codec.Lawful() && IgnoresSpacing(c.codec.parse) && ToAnthropic(c, model, up).Ok?
    ensures
      var a := ToAnthropic(c, model, up).value;
      var m := Assemble(EmptyMessage, ReplayEvents(c, a));
      && Accepted(ReplayEvents(c, a))
      && m == Message(a.id, a.model, m.blocks, Some(a.stopReason), a.inputTokens, a.outputTokens)
      && |m.blocks| == |a.content|
      && forall i | 0 <= i < |a.content| :: ReadBack(c.codec, m.blocks[i]) == Some(a.content[i])
  {
    MappedInputsRead(c, up.calls);
    ReplayAssembles(c, ToAnthropic(c, model, up).value);
  }

  lemma ReplayRuns(c: Context, a: Answer)
    requires |a.content| <= MAX_INDEX
    ensures Accepted(ReplayEvents(c, a))
    ensures
      Assemble(EmptyMessage, ReplayEvents(c, a))
      == Message(a.id, a.model, ReplayBlocks(c, a.content), Some(a.stopReason), a.inputTokens, a.outputTokens)
  {
    var start, end := MessageStart(a.id, a.model, a.inputTokens), MessageDelta(Some(a.stopReason), a.inputTokens, a.outputTokens);
    var blocks, m := ReplayBlocks(c, a.content), Observe(EmptyMessage, start);
    FrontRuns(start);
    BlocksRun(m, blocks);
    RunConcat(MessageStream.Initial, [start, Ping], Blocks(blocks));
    AssembleConcat(EmptyMessage, [start, Ping], Blocks(blocks));
    EndRuns([start, Ping] + Blocks(blocks), end, |blocks|, m.(blocks := blocks));
  }

  lemma FrontRuns(start: Event)
    requires start.MessageStart?
    ensures Run(MessageStream.Initial, [start, Ping]) == Some(Life(Streaming, None, 0))
    ensures Assemble(EmptyMessage, [start, Ping]) == Observe(EmptyMessage, start)
  {
    RunSnoc(MessageStream.Initial, [], start);
    RunSnoc(MessageStream.Initial, [start], Ping);
    AssembleSnoc(EmptyMessage, [], start);
    AssembleSnoc(EmptyMessage, [start], Ping);
    assert [] + [start] == [start] && [start] + [Ping] == [start, Ping];
  }

  lemma EndRuns(body: seq<Event>, end: Event, n: nat, m: Message)
    requires Run(MessageStream.Initial, body) == Some(Life(Streaming, None, n)) && Assemble(EmptyMessage, body) == m
    requires end.MessageDelta?
    ensures Accepted(body + [end, MessageStop])
    ensures Assemble(EmptyMessage, body + [end, MessageStop]) == Observe(m, end)
  {
    RunSnoc(MessageStream.Initial, body, end);
    AssembleSnoc(EmptyMessage, body, end);
    RunSnoc(MessageStream.Initial, body + [end], MessageStop);
    AssembleSnoc(EmptyMessage, body + [end], MessageStop);
    assert body + [end] + [MessageStop] == body + [end, MessageStop];
  }

  // ---------- Fed back as history ----------

  function HistoryBlock(b: AnswerBlock): H.Block {
    match b
    case Thinking(thinking, signature) => H.ThinkingBlock(Some(thinking), Some(signature))
    case Text(text) => H.TextBlock(Some(text))
    case Tool(id, name, input) => H.ToolUseBlock(Some(id), Some(name), Some(input))
  }

  function HistoryBlocks(content: seq<AnswerBlock>): seq<H.Block> {
    seq(|content|, i requires 0 <= i < |content| => HistoryBlock(content[i]))
  }

  /** The upstream's tool calls as the history translator writes them. */
  function CallsOf(c: Context, tools: seq<AnswerBlock>): seq<H.Call>
    requires forall i | 0 <= i < |tools| :: tools[i].Tool?
  {
    seq(|tools|, i requires 0 <= i < |tools| => H.Call(tools[i].id, tools[i].name, Spaced(c.codec.write(tools[i].input))))
  }

  lemma OnBlocksSnoc(c: H.Context, m: H.Midway, blocks: seq<H.Block>, b: H.Block)
    requires H.OnBlocks(c, H.Assistant, m, blocks).Ok?
    ensures H.OnBlocks(c, H.Assistant, m, blocks + [b]) == H.OnBlock(c, H.Assistant, H.OnBlocks(c, H.Assistant, m, blocks).value, b)
  {
    assert (blocks + [b])[..|blocks|] == blocks;
  }

  /** What the history translator holds after the calls of an answer. */
  function WithTools(c: Context, m: H.Midway, mapped: Mapped): H.Midway
    requires forall i | 0 <= i < |mapped.tools| :: mapped.tools[i].Tool?
  {
    m.(calls := CallsOf(c, mapped.tools), bindings := mapped.bindings,
       seen := m.seen + mapped.seen, pending := m.pending + mapped.seen)
  }

  lemma ToolGoesBack(c: Context, m: H.Midway, before: Mapped, call: UpstreamCall)
    requires forall i | 0 <= i < |before.tools| :: before.tools[i].Tool?
    requires MapCall(c, before, call).Ok? && m.seen !! MapCall(c, before, call).value.seen
    requires |before.bindings| < MAX_TOOL_CALLS
    ensures
      var mapped := MapCall(c, before, call).value;
      && |mapped.tools| == |before.tools| + 1 && mapped.tools[..|before.tools|] == before.tools
      && (forall i | 0 <= i < |mapped.tools| :: mapped.tools[i].Tool?)
      && H.OnBlock(ForHistory(c), H.Assistant, WithTools(c, m, before), HistoryBlock(mapped.tools[|before.tools|]))
         == Ok(WithTools(c, m, mapped))
  {
    var mapped := MapCall(c, before, call).value;
    var tool := mapped.tools[|before.tools|];
    assert CallsOf(c, mapped.tools) == CallsOf(c, before.tools) + [H.Call(tool.id, tool.name, Spaced(c.codec.write(tool.input)))];
    assert m.seen + before.seen + {tool.id} == m.seen + mapped.seen;
    assert m.pending + before.seen + {tool.id} == m.pending + mapped.seen;
  }

  /** The calls of an answer, one after the other, after its reasoning and text. */
  lemma {:induction false} ToolsGoBack(c: Context, calls: seq<UpstreamCall>, m: H.Midway, front: seq<H.Block>, m0: H.Midway)
    requires H.OnBlocks(ForHistory(c), H.Assistant, m0, front) == Ok(m)
    requires m.calls == [] && m.bindings == [] && MapCalls(c, calls).Ok? && |calls| <= MAX_TOOL_CALLS
    requires m.seen !! MapCalls(c, calls).value.seen
    ensures
      var mapped := MapCalls(c, calls).value;
      && (forall i | 0 <= i < |mapped.tools| :: mapped.tools[i].Tool?) && |mapped.bindings| == |calls|
      && H.OnBlocks(ForHistory(c), H.Assistant, m0, front + HistoryBlocks(mapped.tools)) == Ok(WithTools(c, m, mapped))
  {
    if calls == [] {
      NoTools(c, m, front);
    } else {
      var short, call := calls[..|calls| - 1], calls[|calls| - 1];
      ToolsGoBack(c, short, m, front, m0);
      var before := MapCalls(c, short).value;
      ToolGoesBack(c, m, before, call);
      LastTool(front, MapCall(c, before, call).value.tools);
      OnBlocksSnoc(ForHistory(c), m0, front + HistoryBlocks(before.tools),
                   HistoryBlock(MapCall(c, before, call).value.tools[|before.tools|]));
    }
  }

  lemma NoTools(c: Context, m: H.Midway, front: seq<H.Block>)
    requires m.calls == [] && m.bindings == []
    ensures front + HistoryBlocks([]) == front && WithTools(c, m, Mapped([], [], {})) == m
  {
    assert m.seen + {} == m.seen && m.pending + {} == m.pending;
  }

  lemma LastTool(front: seq<H.Block>, tools: seq<AnswerBlock>)
    requires tools != []
    ensures
      front + HistoryBlocks(tools)
      == front + HistoryBlocks(tools[..|tools| - 1]) + [HistoryBlock(tools[|tools| - 1])]
  {
  }

  function FrontOf(reasoning: Option<string>, signature: string, content: Option<string>): seq<H.Block> {
    (if reasoning.Some? then [H.ThinkingBlock(reasoning, Some(signature))] else [])
    + (if content.Some? then [H.TextBlock(content)] else [])
  }

  function FrontRead(st: H.State, reasoning: Option<string>, signature: string, content: Option<string>): H.Midway {
    H.Begin(st).(text := if content.Some? then content.value else "",
                 reasoning := if reasoning.Some? then Some((reasoning.value, signature)) else None)
  }

  lemma FrontGoesBack(c: Context, st: H.State, reasoning: Option<string>, signature: string, content: Option<string>)
    ensures
      H.OnBlocks(ForHistory(c), H.Assistant, H.Begin(st), FrontOf(reasoning, signature, content))
      == Ok(FrontRead(st, reasoning, signature, content))
  {
    var thinking := if reasoning.Some? then [H.ThinkingBlock(reasoning, Some(signature))] else [];
    if reasoning.Some? {
      OnBlocksSnoc(ForHistory(c), H.Begin(st), [], thinking[0]);
      assert [] + [thinking[0]] == thinking;
    }
    if content.Some? {
      OnBlocksSnoc(ForHistory(c), H.Begin(st), thinking, H.TextBlock(content));
      assert "" + content.value == content.value;
    } else {
      assert FrontOf(reasoning, signature, content) == thinking;
    }
  }

  /**
    An answer returned as history, under the same signer and with fresh tool ids, is accepted: its signature
    verifies, and the turn sent upstream holds the reasoning, text and calls the upstream sent.
   */
  lemma AnswerGoesBack(c: Context, model: string, up: Upstream, st: H.State)
    requires c.signer.Lawful() && st.pending == {}
    requires ToAnthropic(c, model, up).Ok? && st.seen !! MapCalls(c, up.calls).value.seen
    ensures
      var mapped := MapCalls(c, up.calls).value;
      var message := H.Message(Some(H.Assistant), H.Blocks(HistoryBlocks(ToAnthropic(c, model, up).value.content)));
      && (forall i | 0 <= i < |mapped.tools| :: mapped.tools[i].Tool?)
      && H.OnMessage(ForHistory(c), st, message)
         == Ok(H.State(st.turns + [H.Reply(NonEmpty(up.content), CallsOf(c, mapped.tools), NonEmpty(up.reasoning))],
                       mapped.seen, st.seen + mapped.seen))
  {
    var reasoning, text, mapped := NonEmpty(up.reasoning), NonEmpty(up.content), MapCalls(c, up.calls).value;
    var signature := Sealed(c, reasoning, mapped.bindings).value;
    var content := ContentOf(reasoning, signature, text, mapped.tools);
    assert content == ToAnthropic(c, model, up).value.content;
    var m := BlocksGoBack(c, up.calls, st, reasoning, signature, text);
    ConcludesWell(c, st, reasoning, signature, text, mapped);
    assert H.OnMessage(ForHistory(c), st, H.Message(Some(H.Assistant), H.Blocks(HistoryBlocks(content))))
           == H.Conclude(ForHistory(c), st, H.Assistant, m);
  }

  lemma FrontThenTools(reasoning: Option<string>, signature: string, text: Option<string>, tools: seq<AnswerBlock>)
    ensures HistoryBlocks(ContentOf(reasoning, signature, text, tools)) == FrontOf(reasoning, signature, text) + HistoryBlocks(tools)
  {
  }

  lemma BlocksGoBack(c: Context, calls: seq<UpstreamCall>, st: H.State, reasoning: Option<string>, signature: string, text: Option<string>)
    returns (m: H.Midway)
    requires MapCalls(c, calls).Ok? && |calls| <= MAX_TOOL_CALLS && st.seen !! MapCalls(c, calls).value.seen
    ensures
      var mapped := MapCalls(c, calls).value;
      && (forall i | 0 <= i < |mapped.tools| :: mapped.tools[i].Tool?)
      && m == Finished(c, st, reasoning, signature, text, mapped)
      && H.OnBlocks(ForHistory(c), H.Assistant, H.Begin(st), HistoryBlocks(ContentOf(reasoning, signature, text, mapped.tools)))
         == Ok(m)
  {
    var mapped, front := MapCalls(c, calls).value, FrontOf(reasoning, signature, text);
    FrontGoesBack(c, st, reasoning, signature, text);
    ToolsGoBack(c, calls, FrontRead(st, reasoning, signature, text), front, H.Begin(st));
    FrontThenTools(reasoning, signature, text, mapped.tools);
    m := Finished(c, st, reasoning, signature, text, mapped);
  }

  /** What the history translator holds at the end of a returned answer. */
  function Finished(
    c: Context, st: H.State, reasoning: Option<string>, signature: string, text: Option<string>, mapped: Mapped): H.Midway
    requires forall i | 0 <= i < |mapped.tools| :: mapped.tools[i].Tool?
  {
    WithTools(c, FrontRead(st, reasoning, signature, text), mapped)
  }

  lemma ConcludesWell(c: Context, st: H.State, reasoning: Option<string>, signature: string, text: Option<string>, mapped: Mapped)
    requires c.signer.Lawful() && st.pending == {}
    requires forall i | 0 <= i < |mapped.tools| :: mapped.tools[i].Tool?
    requires Sealed(c, reasoning, mapped.bindings) == Ok(signature) && text != Some("")
    requires ContentOf(reasoning, signature, text, mapped.tools) != []
    ensures
      H.Conclude(ForHistory(c), st, H.Assistant, Finished(c, st, reasoning, signature, text, mapped))
      == Ok(H.State(st.turns + [H.Reply(text, CallsOf(c, mapped.tools), reasoning)], mapped.seen, st.seen + mapped.seen))
  {
    if reasoning.Some? {
      SealedVerifiesInContext(c.signer, c.target, reasoning.value, mapped.bindings, c.target, reasoning.value, mapped.bindings);
    }
    assert {} + mapped.seen == mapped.seen;
    assert mapped.tools != [] ==> CallsOf(c, mapped.tools) != [];
  }

  // ---------- With its calls answered ----------

  function Results(ids: seq<string>, outputs: seq<string>): seq<H.Block>
    requires |ids| == |outputs|
  {
    seq(|ids|, i requires 0 <= i < |ids| => H.ToolResultBlock(Some(ids[i]), Some(outputs[i])))
  }

  function AnswersTo(ids: seq<string>, outputs: seq<string>): seq<H.Turn>
    requires |ids| == |outputs|
  {
    seq(|ids|, i requires 0 <= i < |ids| => H.Answer(ids[i], outputs[i]))
  }

  function IdSet(ids: seq<string>): set<string> {
    set id | id in ids
  }

  ghost predicate Answerable(c: Context, ids: seq<string>, pending: set<string>) {
    && (forall i | 0 <= i < |ids| :: ShortToken(c.signer.blank, ids[i]) && ids[i] in pending)
    && (forall i, j | 0 <= i < j < |ids| :: ids[i] != ids[j])
  }

  lemma {:induction false} ResultsRead(c: Context, st: H.State, ids: seq<string>, outputs: seq<string>)
    requires |ids| == |outputs| && Answerable(c, ids, st.pending)
    ensures
      H.OnBlocks(ForHistory(c), H.User, H.Begin(st), Results(ids, outputs))
      == Ok(H.Begin(st).(pending := st.pending - IdSet(ids), answers := AnswersTo(ids, outputs)))
  {
    if ids == [] {
      assert st.pending - IdSet([]) == st.pending && AnswersTo([], []) == [] && outputs == [];
    } else {
      var n := |ids| - 1;
      ResultsRead(c, st, ids[..n], outputs[..n]);
      assert Results(ids, outputs)[..n] == Results(ids[..n], outputs[..n]);
      assert AnswersTo(ids, outputs) == AnswersTo(ids[..n], outputs[..n]) + [H.Answer(ids[n], outputs[n])];
      assert ids == ids[..n] + [ids[n]];
      assert IdSet(ids) == IdSet(ids[..n]) + {ids[n]};
      assert st.pending - IdSet(ids[..n]) - {ids[n]} == st.pending - IdSet(ids);
    }
  }

  function IdsOf(tools: seq<AnswerBlock>): seq<string>
    requires forall i | 0 <= i < |tools| :: tools[i].Tool?
  {
    seq(|tools|, i requires 0 <= i < |tools| => tools[i].id)
  }

  lemma {:induction false} MappedIds(c: Context, calls: seq<UpstreamCall>)
    requires MapCalls(c, calls).Ok?
    ensures
      var mapped := MapCalls(c, calls).value;
      && (forall i | 0 <= i < |mapped.tools| :: mapped.tools[i].Tool?)
      && IdSet(IdsOf(mapped.tools)) == mapped.seen && Answerable(c, IdsOf(mapped.tools), mapped.seen)
  {
    if calls != [] {
      var short := calls[..|calls| - 1];
      MappedIds(c, short);
      var before, mapped := MapCalls(c, short).value, MapCalls(c, calls).value;
      var tool := mapped.tools[|before.tools|];
      assert mapped.tools == before.tools + [tool];
      MoreIds(c, IdsOf(before.tools), before.seen, tool.id);
      assert IdsOf(mapped.tools) == IdsOf(before.tools) + [tool.id];
    }
  }

  lemma MoreIds(c: Context, ids: seq<string>, seen: set<string>, id: string)
    requires IdSet(ids) == seen && Answerable(c, ids, seen) && id !in seen && ShortToken(c.signer.blank, id)
    ensures IdSet(ids + [id]) == seen + {id} && Answerable(c, ids + [id], seen + {id})
  {
    assert forall i | 0 <= i < |ids| :: ids[i] in IdSet(ids);
  }

  /**
    A history that ends in the answer and the results of its calls becomes a transcript: what came before, the
    reply with the upstream's own reasoning, text and calls, and one answer to each call.
   */
  lemma AnsweredHistoryTranslates(
    c: Context, model: string, up: Upstream, history: seq<H.Message>, outputs: seq<string>)
    requires c.signer.Lawful() && ToAnthropic(c, model, up).Ok? && MapCalls(c, up.calls).value.tools != []
    requires H.OnMessages(ForHistory(c), history).Ok? && H.OnMessages(ForHistory(c), history).value.pending == {}
    requires H.OnMessages(ForHistory(c), history).value.seen !! MapCalls(c, up.calls).value.seen
    requires |outputs| == |MapCalls(c, up.calls).value.tools|
    ensures
      var mapped := MapCalls(c, up.calls).value;
      && (forall i | 0 <= i < |mapped.tools| :: mapped.tools[i].Tool?)
      && var ids := IdsOf(mapped.tools);
      var answer := H.Message(Some(H.Assistant), H.Blocks(HistoryBlocks(ToAnthropic(c, model, up).value.content)));
      var results := H.Message(Some(H.User), H.Blocks(Results(ids, outputs)));
      H.Transcript(ForHistory(c), history + [answer] + [results])
      == Ok(H.OnMessages(ForHistory(c), history).value.turns
            + [H.Reply(NonEmpty(up.content), CallsOf(c, mapped.tools), NonEmpty(up.reasoning))]
            + AnswersTo(ids, outputs))
  {
    var hc, st, mapped := ForHistory(c), H.OnMessages(ForHistory(c), history).value, MapCalls(c, up.calls).value;
    AnswerGoesBack(c, model, up, st);
    MappedIds(c, up.calls);
    var ids := IdsOf(mapped.tools);
    var answer := H.Message(Some(H.Assistant), H.Blocks(HistoryBlocks(ToAnthropic(c, model, up).value.content)));
    var results := H.Message(Some(H.User), H.Blocks(Results(ids, outputs)));
    OnMessagesSnoc(hc, history, answer);
    OnMessagesSnoc(hc, history + [answer], results);
    var st' := H.OnMessage(hc, st, answer).value;
    AllAnswered(c, st', ids, outputs);
  }

  lemma AllAnswered(c: Context, st: H.State, ids: seq<string>, outputs: seq<string>)
    requires |ids| == |outputs| && ids != [] && Answerable(c, ids, st.pending) && IdSet(ids) == st.pending
    ensures
      H.OnMessage(ForHistory(c), st, H.Message(Some(H.User), H.Blocks(Results(ids, outputs))))
      == Ok(H.State(st.turns + AnswersTo(ids, outputs), {}, st.seen))
  {
    ResultsRead(c, st, ids, outputs);
    var m := H.Begin(st).(pending := st.pending - IdSet(ids), answers := AnswersTo(ids, outputs));
    assert ids[0] in IdSet(ids) && m.pending == {} && m.answers != [];
    assert st.turns + AnswersTo(ids, outputs) + [] == st.turns + AnswersTo(ids, outputs);
    assert H.Conclude(ForHistory(c), st, H.User, m) == Ok(H.State(st.turns + AnswersTo(ids, outputs), {}, st.seen));
  }

  lemma OnMessagesSnoc(c: H.Context, messages: seq<H.Message>, msg: H.Message)
    requires H.OnMessages(c, messages).Ok?
    ensures H.OnMessages(c, messages + [msg]) == H.OnMessage(c, H.OnMessages(c, messages).value, msg)
  {
    assert (messages + [msg])[..|messages|] == messages;
  }
}
