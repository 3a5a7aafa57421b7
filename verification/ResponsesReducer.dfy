/** The OpenAI Responses to Anthropic Messages reducer, specified on values. */
module Reducer {
  // For every upstream event: the next state and the events emitted, or the error that ends the run.

  import opened Wrappers
  import opened Utf8
  import opened JsonValues
  import opened ProtocolErrors
  import opened MessageStream
  import opened ThinkingSignature
  import opened ToolNames

  const MAX_TEXT_BYTES: nat := 32 * 1024 * 1024
  const MAX_REASONING_BYTES: nat := 16 * 1024 * 1024
  const MAX_TOOL_ARGUMENT_BYTES: nat := 8 * 1024 * 1024
  const MAX_NONSTREAM_BYTES: nat := 64 * 1024 * 1024
  const MAX_TOOL_CALLS: nat := 256
  const MAX_OUTPUT_ITEMS: nat := 1024
  const MAX_ID_BYTES: nat := 512
  const MAX_KIND_BYTES: nat := 64
  const BASE_ESTIMATE: nat := 512
  const TEXT_OVERHEAD: nat := 160
  const REASONING_OVERHEAD: nat := 192
  const TOOL_OVERHEAD: nat := 192
  const EMPTY_OUTPUT := "empty-output"

  // ---------- Upstream events ----------

  datatype Usage = Usage(input: Option<nat>, output: Option<nat>)

  /**
    An output item with its fields read: `id` is the "id" member, or "call_id" where there is none;
    `digestId` is the name an item without an id goes by; `summary` and `content` are the joined texts.
   */
  datatype Item = Item(
    kind: Option<string>, id: Option<string>, callId: Option<string>, digestId: string,
    name: string, arguments: string, summary: string, encrypted: Option<string>, content: string)

  datatype UpstreamEvent =
    | Created(responseId: Option<string>, usage: Usage)
    | OutputTextDelta(itemId: Option<string>, delta: string)
    | ReasoningTextDelta(itemId: Option<string>, delta: string)
    | OutputItemAdded(item: Option<Item>)
    | ArgumentsDelta(itemId: Option<string>, callId: Option<string>, delta: string)
    | OutputItemDone(item: Option<Item>)
    | Completed(usage: Usage)
    | Incomplete(reason: Option<string>, usage: Usage)
    | ResponseFailed
    | StreamError
    | OtherEvent
    | UntypedEvent

  // ---------- State ----------

  datatype TextState = TextState(index: nat, text: string, closed: bool)

  datatype ReasoningState = ReasoningState(
    index: nat, text: string, encrypted: Option<string>, signature: Option<string>, done: bool, closed: bool)

  datatype ToolState = ToolState(
    index: Option<nat>, callId: string, name: string, arguments: string, closed: bool)

  datatype BlockKey = ReasoningKey(id: string) | TextKey(id: string) | ToolKey(id: string)

  /** What a signature was made from: the call it was bound to, and the ciphertext it carries. */
  datatype Seal = Seal(toolId: Option<string>, encrypted: string)

  /** What a reducer is created with. */
  datatype Context = Context(
    model: string, authEpoch: string, accountHash: string,
    signer: ThinkingSigner, toolNames: ToolNameMap, codec: Codec)

  /** The reducer's fields. `seals` records what each signature was made from; the program keeps only the signature. */
  datatype State = State(
    messageId: string,
    created: bool, started: bool, completed: bool, failed: bool,
    nextIndex: nat,
    texts: map<string, TextState>,
    reasoning: map<string, ReasoningState>,
    tools: map<string, ToolState>,
    callIds: map<string, string>,
    blockOrder: seq<BlockKey>,
    active: Option<BlockKey>,
    pending: Option<string>,
    outputItems: map<string, string>,
    inputTokens: nat, outputTokens: nat,
    stopReason: string,
    totalText: nat, totalReasoning: nat, stored: nat, estimated: nat,
    seals: map<string, Seal>)

  const Fresh := State(
    "msg_codex", false, false, false, false, 0, map[], map[], map[], map[], [], None, None, map[],
    0, 0, "end_turn", 0, 0, 0, BASE_ESTIMATE, map[])

  datatype Emission = Emission(state: State, out: seq<Event>)

  type Outcome = Result<Emission, ProtocolError>

  // ---------- Budgets ----------

  /** Reserving touches the byte counters and nothing else. */
  predicate SameButBudgets(s: State, s': State) {
    s' == s.(totalText := s'.totalText, totalReasoning := s'.totalReasoning, stored := s'.stored, estimated := s'.estimated)
  }

  function ReserveStored(s: State, amount: nat): (r: Result<State, ProtocolError>)
    ensures r.Ok? ==> SameButBudgets(s, r.value)
  {
    if s.stored + amount > MAX_NONSTREAM_BYTES then Err(TooLarge("response aggregate is too large"))
    else Ok(s.(stored := s.stored + amount))
  }

  function ReservePayload(s: State, amount: nat, json: nat): (r: Result<State, ProtocolError>)
    ensures r.Ok? ==> SameButBudgets(s, r.value)
  {
    var s :- ReserveStored(s, amount);
    if s.estimated + json > MAX_NONSTREAM_BYTES then Err(TooLarge("nonstream response is too large"))
    else Ok(s.(estimated := s.estimated + json))
  }

  function ReserveIdentity(s: State, value: string, overhead: nat): (r: Result<State, ProtocolError>)
    ensures r.Ok? ==> SameButBudgets(s, r.value)
  {
    ReservePayload(s, ByteLen(value) + overhead, EscapedJsonLen(value) + overhead)
  }

  function ReserveText(s: State, text: string): (r: Result<State, ProtocolError>)
    ensures r.Ok? ==> SameButBudgets(s, r.value)
  {
    if s.totalText + ByteLen(text) > MAX_TEXT_BYTES then Err(TooLarge("text is too large"))
    else ReservePayload(s.(totalText := s.totalText + ByteLen(text)), ByteLen(text), EscapedJsonLen(text))
  }

  function ReserveReasoning(s: State, text: string): (r: Result<State, ProtocolError>)
    ensures r.Ok? ==> SameButBudgets(s, r.value)
  {
    if s.totalReasoning + ByteLen(text) > MAX_REASONING_BYTES then Err(TooLarge("reasoning is too large"))
    else ReservePayload(s.(totalReasoning := s.totalReasoning + ByteLen(text)), ByteLen(text), EscapedJsonLen(text))
  }

  function ReserveOpaque(s: State, encrypted: string): (r: Result<State, ProtocolError>)
    ensures r.Ok? ==> SameButBudgets(s, r.value)
  {
    if s.totalReasoning + ByteLen(encrypted) > MAX_REASONING_BYTES then Err(TooLarge("reasoning is too large"))
    else ReserveStored(s.(totalReasoning := s.totalReasoning + ByteLen(encrypted)), ByteLen(encrypted))
  }

  /** Saturating, as the program subtracts. */
  function ReleaseStored(s: State, amount: nat): State {
    s.(stored := if amount <= s.stored then s.stored - amount else 0)
  }

  // ---------- Output items ----------

  function ClaimOutputItem(s: State, id: string, kind: string): Result<State, ProtocolError> {
    if id == "" || ByteLen(id) > MAX_ID_BYTES then Err(BadUpstream("upstream item id is invalid"))
    else if id in s.outputItems && s.outputItems[id] != kind then Err(BadUpstream("output item type changed"))
    else
      var items := if id in s.outputItems then s.outputItems else s.outputItems[id := kind];
      if |items| > MAX_OUTPUT_ITEMS then Err(TooLarge("too many output items")) else Ok(s.(outputItems := items))
  }

  function NoteOutputItem(s: State, item: Item): Result<State, ProtocolError> {
    if item.kind.None? || item.kind.value == "" || ByteLen(item.kind.value) > MAX_KIND_BYTES then
      Err(BadUpstream("output item type is invalid"))
    else ClaimOutputItem(s, if item.id.Some? then item.id.value else item.digestId, item.kind.value)
  }

  function RequiredId(id: Option<string>, detail: string): Result<string, ProtocolError> {
    if id.None? || id.value == "" || ByteLen(id.value) > MAX_ID_BYTES then Err(BadUpstream(detail))
    else Ok(id.value)
  }

  function RequireNoActiveBlock(s: State): Result<(), ProtocolError> {
    if s.active.None? then Ok(()) else Err(BadUpstream("output blocks overlap"))
  }

  // ---------- Text ----------

  function OpenText(s: State, id: string): Outcome {
    var _ :- RequireNoActiveBlock(s);
    var s :- ReserveIdentity(s, id, TEXT_OVERHEAD);
    Ok(Emission(StartText(s, id), [BlockStart(s.nextIndex, TextHead(""))]))
  }

  function StartText(s: State, id: string): State {
    s.(nextIndex := s.nextIndex + 1,
       texts := s.texts[id := TextState(s.nextIndex, "", false)],
       blockOrder := s.blockOrder + [TextKey(id)],
       active := Some(TextKey(id)))
  }

  function PushText(s: State, id: string, delta: string): Outcome {
    if s.active != Some(TextKey(id)) then Err(BadUpstream("text blocks overlap"))
    else if id !in s.texts || s.texts[id].closed then Err(BadUpstream("text delta arrived after item completed"))
    else
      var s :- ReserveText(s, delta);
      var t := s.texts[id];
      Ok(Emission(
        s.(texts := s.texts[id := t.(text := t.text + delta)]),
        if delta == "" then [] else [BlockDelta(t.index, TextDelta(delta))]))
  }

  function EnsureText(s: State, id: string): Outcome {
    if id in s.texts then Ok(Emission(s, [])) else OpenText(s, id)
  }

  function AppendText(c: Context, s: State, id: string, delta: string): Outcome {
    var closed :- ClosePendingReasoning(c, s, None);
    var begun :- EnsureText(closed.state, id);
    var pushed :- PushText(begun.state, id, delta);
    Ok(Emission(pushed.state, closed.out + begun.out + pushed.out))
  }

  function FinishText(s: State, id: string): Outcome {
    if id !in s.texts then Err(BadUpstream("text state is missing"))
    else if s.texts[id].closed || s.active != Some(TextKey(id)) then
      Err(BadUpstream("text item lifecycle is invalid"))
    else
      var t := s.texts[id];
      Ok(Emission(s.(texts := s.texts[id := t.(closed := true)], active := None), [BlockStop(t.index)]))
  }

  function FinishMessageItem(c: Context, s: State, item: Item): Outcome {
    var id :- RequiredId(item.id, "output item id is invalid");
    var appended :-
      if id !in s.texts then AppendText(c, s, id, item.content)
      else if s.texts[id].text != item.content then Err(BadUpstream("text deltas do not match completed item"))
      else Ok(Emission(s, []));
    var finished :- FinishText(appended.state, id);
    Ok(Emission(finished.state, appended.out + finished.out))
  }

  // ---------- Reasoning ----------

  function OpenReasoning(s: State, id: string): Outcome {
    var _ :- RequireNoActiveBlock(s);
    var s :- ReserveIdentity(s, id, REASONING_OVERHEAD);
    Ok(Emission(StartReasoning(s, id), [BlockStart(s.nextIndex, ThinkingHead("", ""))]))
  }

  function StartReasoning(s: State, id: string): State {
    s.(nextIndex := s.nextIndex + 1,
       reasoning := s.reasoning[id := ReasoningState(s.nextIndex, "", None, None, false, false)],
       blockOrder := s.blockOrder + [ReasoningKey(id)],
       active := Some(ReasoningKey(id)))
  }

  function PushReasoning(s: State, id: string, delta: string): Outcome {
    if s.active != Some(ReasoningKey(id)) then Err(BadUpstream("reasoning blocks overlap"))
    else if id !in s.reasoning || s.reasoning[id].done || s.reasoning[id].closed then
      Err(BadUpstream("reasoning delta arrived after item completed"))
    else
      var s :- ReserveReasoning(s, delta);
      var r := s.reasoning[id];
      Ok(Emission(
        s.(reasoning := s.reasoning[id := r.(text := r.text + delta)]),
        if delta == "" then [] else [BlockDelta(r.index, ThinkingDelta(delta))]))
  }

  function EnsureReasoning(s: State, id: string): Outcome {
    if id in s.reasoning then Ok(Emission(s, [])) else OpenReasoning(s, id)
  }

  /** Another item's text seals the block that is waiting; more text of the same item is refused later. */
  function SealOther(c: Context, s: State, id: string): Outcome {
    if s.pending.Some? && s.pending.value != id then ClosePendingReasoning(c, s, None) else Ok(Emission(s, []))
  }

  function AppendReasoning(c: Context, s: State, id: string, delta: string): Outcome {
    var closed :- SealOther(c, s, id);
    var begun :- EnsureReasoning(closed.state, id);
    var pushed :- PushReasoning(begun.state, id, delta);
    Ok(Emission(pushed.state, closed.out + begun.out + pushed.out))
  }

  /** The completed item's summary has to be the streamed text, or comes now if none was streamed. */
  function SettleSummary(c: Context, s: State, id: string, summary: string): Outcome {
    if id !in s.reasoning || (s.reasoning[id].text == "" && summary != "") then AppendReasoning(c, s, id, summary)
    else if summary != "" && s.reasoning[id].text != summary then
      Err(BadUpstream("reasoning deltas do not match completed item"))
    else Ok(Emission(s, []))
  }

  function FinishReasoning(c: Context, s: State, item: Item): Outcome {
    var id :- RequiredId(item.id, "output item id is invalid");
    var appended :- SettleSummary(c, s, id, item.summary);
    if item.encrypted.None? then Err(BadUpstream("encrypted reasoning is missing"))
    else
      var held :- HoldCiphertext(appended.state, id, item.encrypted.value);
      Ok(Emission(held, appended.out))
  }

  function HoldCiphertext(s: State, id: string, encrypted: string): Result<State, ProtocolError> {
    if id !in s.reasoning then Err(BadUpstream("reasoning state is missing"))
    else if s.reasoning[id].done || s.reasoning[id].closed then
      Err(BadUpstream("reasoning item completed twice"))
    else
      var s :- ReserveOpaque(s, encrypted);
      var r := s.reasoning[id];
      Ok(s.(reasoning := s.reasoning[id := r.(encrypted := Some(encrypted), done := true)], pending := Some(id)))
  }

  /** Seal the ciphertext held back so far, bound to the tool call that ends the block, if one does. */
  function ClosePendingReasoning(c: Context, s: State, toolId: Option<string>): Outcome {
    if s.pending.None? then Ok(Emission(s, []))
    else
      var id := s.pending.value;
      if s.active != Some(ReasoningKey(id)) then Err(BadUpstream("reasoning item lifecycle is invalid"))
      else if id !in s.reasoning || s.reasoning[id].encrypted.None? then
        Err(BadUpstream("encrypted reasoning is missing"))
      else
        var r := s.reasoning[id];
        var encrypted := r.encrypted.value;
        var signature :- c.signer.Seal(c.authEpoch, c.accountHash, id, toolId, encrypted);
        var s :- ReservePayload(ReleaseStored(s, ByteLen(encrypted)), ByteLen(signature), EscapedJsonLen(signature));
        Ok(Emission(
          Sealed(s, id, r.(encrypted := None, signature := Some(signature), closed := true), Seal(toolId, encrypted)),
          [BlockDelta(r.index, SignatureDelta(signature)), BlockStop(r.index)]))
  }

  function Sealed(s: State, id: string, r: ReasoningState, seal: Seal): State {
    s.(reasoning := s.reasoning[id := r], active := None, pending := None, seals := s.seals[id := seal])
  }

  // ---------- Tools ----------

  function RegisterTool(c: Context, s: State, item: Item): Outcome {
    var id :- RequiredId(item.id, "output item id is invalid");
    var callId := if item.callId.Some? then item.callId.value else id;
    var name := c.toolNames.AnthropicName(item.name);
    if callId == "" || name == "" || ByteLen(callId) > MAX_ID_BYTES || ByteLen(name) > MAX_ID_BYTES then
      Err(BadUpstream("tool identity is invalid"))
    else if id in s.tools then
      var t := s.tools[id];
      if t.callId != callId || t.name != name || t.closed then Err(BadUpstream("tool identity changed"))
      else Ok(Emission(s, []))
    else if |s.tools| >= MAX_TOOL_CALLS then Err(TooLarge("too many tool calls"))
    else if callId in s.callIds && s.callIds[callId] != id then Err(BadUpstream("tool call id is duplicated"))
    else
      var closed :- ClosePendingReasoning(c, s, Some(callId));
      var s :- AddTool(closed.state, id, callId, name);
      Ok(Emission(s, closed.out))
  }

  function AddTool(s: State, id: string, callId: string, name: string): (r: Result<State, ProtocolError>)
    ensures r.Ok? ==>
      SameButBudgets(
        s.(callIds := s.callIds[callId := id], tools := s.tools[id := ToolState(None, callId, name, "", false)]), r.value)
  {
    var s :- ReserveIdentity(s, id, TOOL_OVERHEAD);
    var s :- ReserveIdentity(s, callId, 0);
    var s :- ReserveIdentity(s, name, 0);
    Ok(s.(callIds := s.callIds[callId := id], tools := s.tools[id := ToolState(None, callId, name, "", false)]))
  }

  function StartRegisteredTool(s: State, id: string): Outcome {
    if id in s.tools && s.tools[id].index.Some? then
      if s.active != Some(ToolKey(id)) then Err(BadUpstream("tool blocks overlap")) else Ok(Emission(s, []))
    else
      var _ :- RequireNoActiveBlock(s);
      if id !in s.tools then Err(BadUpstream("tool item is missing"))
      else
        var t := s.tools[id];
        Ok(Emission(
          s.(nextIndex := s.nextIndex + 1,
             tools := s.tools[id := t.(index := Some(s.nextIndex))],
             blockOrder := s.blockOrder + [ToolKey(id)],
             active := Some(ToolKey(id))),
          [BlockStart(s.nextIndex, ToolHead(t.callId, t.name))]))
  }

  function PushArguments(s: State, id: string, delta: string): Outcome {
    if id !in s.tools || s.tools[id].index.None? then Err(BadUpstream("tool item is missing"))
    else if ByteLen(s.tools[id].arguments) + ByteLen(delta) > MAX_TOOL_ARGUMENT_BYTES then
      Err(TooLarge("tool arguments are too large"))
    else
      var s :- ReservePayload(s, ByteLen(delta), ByteLen(delta));
      var t := s.tools[id];
      Ok(Emission(
        s.(tools := s.tools[id := t.(arguments := t.arguments + delta)]),
        if delta == "" then [] else [BlockDelta(t.index.value, InputJsonDelta(delta))]))
  }

  function AppendTool(s: State, id: string, callId: Option<string>, delta: string): Outcome {
    if id !in s.tools then Err(BadUpstream("tool argument delta arrived before tool item"))
    else if callId.Some? && callId.value != s.tools[id].callId then Err(BadUpstream("tool call id changed"))
    else if s.tools[id].closed then Err(BadUpstream("tool delta arrived after item completed"))
    else
      var startedTool :- StartRegisteredTool(s, id);
      var pushed :- PushArguments(startedTool.state, id, delta);
      Ok(Emission(pushed.state, startedTool.out + pushed.out))
  }

  /** A tool that never received arguments is given the empty object; the stream does not say so. */
  function FillArguments(s: State, id: string): (r: Result<State, ProtocolError>)
    requires id in s.tools
    ensures r.Ok? && s.tools[id].arguments == "" ==>
      SameButBudgets(s.(tools := s.tools[id := s.tools[id].(arguments := "{}")]), r.value)
  {
    if s.tools[id].arguments != "" then Ok(s)
    else
      var s :- ReservePayload(s, 2, 2);
      Ok(s.(tools := s.tools[id := s.tools[id].(arguments := "{}")]))
  }

  function CloseTool(c: Context, s: State, id: string): Outcome
    requires id in s.tools
  {
    var t := s.tools[id];
    match c.codec.parse(t.arguments)
    case None => Err(BadUpstream("tool arguments are invalid"))
    case Some(v) =>
      if !v.JObject? then Err(BadUpstream("tool arguments must be an object"))
      else if t.closed || t.index.None? || s.active != Some(ToolKey(id)) then
        Err(BadUpstream("tool item lifecycle is invalid"))
      else
        Ok(Emission(s.(tools := s.tools[id := t.(closed := true)], active := None), [BlockStop(t.index.value)]))
  }

  /** The completed item's arguments have to be the streamed ones, or come now if none were streamed. */
  function SettleArguments(s: State, id: string, item: Item): Outcome {
    if id !in s.tools then Err(BadUpstream("tool item is missing"))
    else if s.tools[id].arguments == "" && item.arguments != "" then AppendTool(s, id, item.callId, item.arguments)
    else if item.arguments != "" && s.tools[id].arguments != item.arguments then
      Err(BadUpstream("tool argument deltas do not match completed item"))
    else Ok(Emission(s, []))
  }

  function FillAndClose(c: Context, s: State, id: string): Outcome {
    if id !in s.tools then Err(BadUpstream("tool item is missing"))
    else
      var filled :- FillArguments(s, id);
      CloseTool(c, filled, id)
  }

  function FinishTool(c: Context, s: State, item: Item): Outcome {
    var id :- RequiredId(item.id, "output item id is invalid");
    var registered :- RegisterTool(c, s, item);
    var begun :- StartRegisteredTool(registered.state, id);
    var settled :- SettleArguments(begun.state, id, item);
    var closed :- FillAndClose(c, settled.state, id);
    Ok(Emission(closed.state, registered.out + begun.out + settled.out + closed.out))
  }

  // ---------- Terminal ----------

  function ReadUsage(s: State, usage: Usage): State {
    s.(inputTokens := if usage.input.Some? then usage.input.value else s.inputTokens,
       outputTokens := if usage.output.Some? then usage.output.value else s.outputTokens)
  }

  predicate AnyOpen(s: State) {
    || (exists k :: k in s.texts && !s.texts[k].closed)
    || (exists k :: k in s.reasoning && !s.reasoning[k].closed)
    || (exists k :: k in s.tools && !s.tools[k].closed)
  }

  function EmptyOutput(c: Context, s: State): Outcome {
    var s :- ClaimOutputItem(s, EMPTY_OUTPUT, "message");
    var appended :- AppendText(c, s, EMPTY_OUTPUT, "");
    var finished :- FinishText(appended.state, EMPTY_OUTPUT);
    Ok(Emission(finished.state, appended.out + finished.out))
  }

  function Conclude(s: State, usage: Usage, maxTokens: bool): Emission {
    var s := ReadUsage(s, usage);
    var s := s.(
      completed := true,
      stopReason := if maxTokens then "max_tokens" else if |s.tools| == 0 then "end_turn" else "tool_use");
    Emission(s, [MessageDelta(Some(s.stopReason), s.inputTokens, s.outputTokens), MessageStop])
  }

  /** A response without any block is given an empty text block. */
  function EnsureContent(c: Context, s: State): Outcome {
    if s.active.Some? || AnyOpen(s) then Err(BadUpstream("upstream completed with an open output item"))
    else if s.blockOrder == [] then EmptyOutput(c, s)
    else Ok(Emission(s, []))
  }

  function FinishTerminal(c: Context, s: State, usage: Usage, maxTokens: bool): Outcome {
    var start := EnsureStarted(c, s);
    var closed :- ClosePendingReasoning(c, start.state, None);
    var filled :- EnsureContent(c, closed.state);
    var end := Conclude(filled.state, usage, maxTokens);
    Ok(Emission(end.state, start.out + closed.out + filled.out + end.out))
  }

  // ---------- Events ----------

  function EnsureStarted(c: Context, s: State): Emission {
    if s.started then Emission(s, [])
    else Emission(s.(started := true), [MessageStart(s.messageId, c.model, s.inputTokens)])
  }

  function Begin(c: Context, s: State, responseId: Option<string>, usage: Usage): Outcome {
    if s.created || s.started then Err(BadUpstream("response.created arrived more than once"))
    else if responseId.Some? && (responseId.value == "" || ByteLen(responseId.value) > MAX_ID_BYTES) then
      Err(BadUpstream("response id is invalid"))
    else
      var s := s.(created := true, messageId := if responseId.Some? then responseId.value else s.messageId);
      Ok(EnsureStarted(c, ReadUsage(s, usage)))
  }

  function ApplyTextDelta(c: Context, s: State, itemId: Option<string>, delta: string): Outcome {
    var start := EnsureStarted(c, s);
    var id :- RequiredId(itemId, "upstream item id is invalid");
    var s :- ClaimOutputItem(start.state, id, "message");
    var appended :- AppendText(c, s, id, delta);
    Ok(Emission(appended.state, start.out + appended.out))
  }

  function ApplyReasoningDelta(c: Context, s: State, itemId: Option<string>, delta: string): Outcome {
    var start := EnsureStarted(c, s);
    var id :- RequiredId(itemId, "upstream item id is invalid");
    var s :- ClaimOutputItem(start.state, id, "reasoning");
    var appended :- AppendReasoning(c, s, id, delta);
    Ok(Emission(appended.state, start.out + appended.out))
  }

  function ApplyArgumentsDelta(
    c: Context, s: State, itemId: Option<string>, callId: Option<string>, delta: string): Outcome
  {
    var start := EnsureStarted(c, s);
    var id :- RequiredId(itemId, "upstream item id is invalid");
    var s :- ClaimOutputItem(start.state, id, "function_call");
    var appended :- AppendTool(s, id, callId, delta);
    Ok(Emission(appended.state, start.out + appended.out))
  }

  function ApplyItemAdded(c: Context, s: State, item: Item): Outcome {
    var start := EnsureStarted(c, s);
    var s :- NoteOutputItem(start.state, item);
    var registered :-
      if item.kind == Some("function_call") then RegisterTool(c, s, item) else Ok(Emission(s, []));
    Ok(Emission(registered.state, start.out + registered.out))
  }

  function ApplyItemDone(c: Context, s: State, item: Item): Outcome {
    var start := EnsureStarted(c, s);
    var s :- NoteOutputItem(start.state, item);
    var finished :-
      if item.kind == Some("reasoning") then FinishReasoning(c, s, item)
      else if item.kind == Some("function_call") then FinishTool(c, s, item)
      else if item.kind == Some("message") then FinishMessageItem(c, s, item)
      else Ok(Emission(s, []));
    Ok(Emission(finished.state, start.out + finished.out))
  }

  function Apply(c: Context, s: State, e: UpstreamEvent): Outcome {
    if s.completed || s.failed then Err(BadUpstream("event arrived after terminal response"))
    else if e.UntypedEvent? then Err(BadUpstream("upstream event type is missing"))
    else if !e.Created? && !s.created then Err(BadUpstream("response.created must be the first event"))
    else
      match e
      case Created(responseId, usage) => Begin(c, s, responseId, usage)
      case OutputTextDelta(itemId, delta) => ApplyTextDelta(c, s, itemId, delta)
      case ReasoningTextDelta(itemId, delta) => ApplyReasoningDelta(c, s, itemId, delta)
      case ArgumentsDelta(itemId, callId, delta) => ApplyArgumentsDelta(c, s, itemId, callId, delta)
      case OutputItemAdded(item) =>
        if item.None? then Err(BadUpstream("output item is missing")) else ApplyItemAdded(c, s, item.value)
      case OutputItemDone(item) =>
        if item.None? then Err(BadUpstream("output item is missing")) else ApplyItemDone(c, s, item.value)
      case Completed(usage) => FinishTerminal(c, s, usage, false)
      case Incomplete(reason, usage) =>
        if reason == Some("max_output_tokens") then FinishTerminal(c, s, usage, true)
        else Err(BadUpstream("upstream response was incomplete"))
      case ResponseFailed => Err(BadUpstream("upstream response failed"))
      case StreamError => Err(BadUpstream("upstream stream error"))
      case OtherEvent => Ok(Emission(s, []))
  }

  /** A run up to its first error: the state reached and everything emitted. */
  function RunAll(c: Context, es: seq<UpstreamEvent>): Outcome {
    if es == [] then Ok(Emission(Fresh, []))
    else
      var before :- RunAll(c, es[..|es| - 1]);
      var now :- Apply(c, before.state, es[|es| - 1]);
      Ok(Emission(now.state, before.out + now.out))
  }
}
