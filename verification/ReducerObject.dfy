/** The reducer as the gateway holds it: one object whose fields every upstream event updates. */
module ReducerObject {
  import opened Wrappers
  import opened Utf8
  import opened JsonValues
  import opened ProtocolErrors
  import opened MessageStream
  import opened ThinkingSignature
  import opened ToolNames
  import opened Reducer
  import Steps = ReducerRuns
  import OneShotAnswer

  type Emitting = Result<seq<Event>, ProtocolError>
  type Checking = Result<(), ProtocolError>

  /** An operation does what the specification says: same events and same state, or the same error. */
  ghost predicate Follows(spec: Outcome, r: Emitting, now: State) {
    match spec
    case Ok(e) => r == Ok(e.out) && now == e.state
    case Err(error) => r == Err(error)
  }

  ghost predicate Updates(spec: Result<State, ProtocolError>, r: Checking, now: State) {
    match spec
    case Ok(s) => r == Ok(()) && now == s
    case Err(error) => r == Err(error)
  }

  class ResponsesReducer {
    const context: Context
    var messageId: string
    var created: bool
    var started: bool
    var completed: bool
    var failed: bool
    var nextIndex: nat
    var texts: map<string, TextState>
    var reasoning: map<string, ReasoningState>
    var tools: map<string, ToolState>
    var callIds: map<string, string>
    var blockOrder: seq<BlockKey>
    var activeBlock: Option<BlockKey>
    var pendingReasoning: Option<string>
    var outputItems: map<string, string>
    var inputTokens: nat
    var outputTokens: nat
    var stopReason: string
    var totalTextBytes: nat
    var totalReasoningBytes: nat
    var storedBytes: nat
    var estimatedNonstreamBytes: nat

    ghost var seals: map<string, Seal>
    // Everything emitted so far.
    ghost var emitted: seq<Event>

    ghost function View(): State
      reads this
    {
      State(messageId, created, started, completed, failed, nextIndex, texts, reasoning, tools, callIds, blockOrder,
            activeBlock, pendingReasoning, outputItems, inputTokens, outputTokens, stopReason,
            totalTextBytes, totalReasoningBytes, storedBytes, estimatedNonstreamBytes, seals)
    }

    /** The events emitted are an accepted stream, and the fields mirror it. */
    ghost predicate Valid()
      reads this
    {
      && AcceptedSoFar(emitted)
      && Steps.RunInv(context, View(), Run(Initial, emitted).value, Assemble(EmptyMessage, emitted))
    }

    constructor (context: Context)
      ensures this.context == context && View() == Fresh && emitted == []
      ensures Valid()
    {
      this.context := context;
      messageId := "msg_codex";
      created, started, completed, failed := false, false, false, false;
      nextIndex := 0;
      texts, reasoning, tools, callIds := map[], map[], map[], map[];
      blockOrder, activeBlock, pendingReasoning, outputItems := [], None, None, map[];
      inputTokens, outputTokens, stopReason := 0, 0, "end_turn";
      totalTextBytes, totalReasoningBytes, storedBytes := 0, 0, 0;
      estimatedNonstreamBytes := BASE_ESTIMATE;
      seals, emitted := map[], [];
      new;
      Steps.FreshInv(context);
    }

    // ---------- Budgets ----------

    method ReserveStored(amount: nat) returns (r: Checking)
      modifies this`storedBytes
      ensures Updates(Reducer.ReserveStored(old(View()), amount), r, View())
    {
      storedBytes := storedBytes + amount;
      if storedBytes > MAX_NONSTREAM_BYTES {
        return Err(TooLarge("response aggregate is too large"));
      }
      return Ok(());
    }

    method ReservePayload(stored: nat, json: nat) returns (r: Checking)
      modifies this`storedBytes, this`estimatedNonstreamBytes
      ensures Updates(Reducer.ReservePayload(old(View()), stored, json), r, View())
    {
      var _ :- ReserveStored(stored);
      estimatedNonstreamBytes := estimatedNonstreamBytes + json;
      if estimatedNonstreamBytes > MAX_NONSTREAM_BYTES {
        return Err(TooLarge("nonstream response is too large"));
      }
      return Ok(());
    }

    method ReserveIdentity(value: string, overhead: nat) returns (r: Checking)
      modifies this`storedBytes, this`estimatedNonstreamBytes
      ensures Updates(Reducer.ReserveIdentity(old(View()), value, overhead), r, View())
    {
      r := ReservePayload(ByteLen(value) + overhead, EscapedJsonLen(value) + overhead);
    }

    method ReserveText(text: string) returns (r: Checking)
      modifies this`totalTextBytes, this`storedBytes, this`estimatedNonstreamBytes
      ensures Updates(Reducer.ReserveText(old(View()), text), r, View())
    {
      totalTextBytes := totalTextBytes + ByteLen(text);
      if totalTextBytes > MAX_TEXT_BYTES {
        return Err(TooLarge("text is too large"));
      }
      r := ReservePayload(ByteLen(text), EscapedJsonLen(text));
    }

    method ReserveReasoning(text: string) returns (r: Checking)
      modifies this`totalReasoningBytes, this`storedBytes, this`estimatedNonstreamBytes
      ensures Updates(Reducer.ReserveReasoning(old(View()), text), r, View())
    {
      totalReasoningBytes := totalReasoningBytes + ByteLen(text);
      if totalReasoningBytes > MAX_REASONING_BYTES {
        return Err(TooLarge("reasoning is too large"));
      }
      r := ReservePayload(ByteLen(text), EscapedJsonLen(text));
    }

    method ReserveReasoningOpaque(encrypted: string) returns (r: Checking)
      modifies this`totalReasoningBytes, this`storedBytes
      ensures Updates(ReserveOpaque(old(View()), encrypted), r, View())
    {
      totalReasoningBytes := totalReasoningBytes + ByteLen(encrypted);
      if totalReasoningBytes > MAX_REASONING_BYTES {
        return Err(TooLarge("reasoning is too large"));
      }
      r := ReserveStored(ByteLen(encrypted));
    }

    method ReleaseStored(amount: nat)
      modifies this`storedBytes
      ensures View() == Reducer.ReleaseStored(old(View()), amount)
    {
      storedBytes := if amount <= storedBytes then storedBytes - amount else 0;
    }

    // ---------- Output items ----------

    method ClaimOutputItem(id: string, kind: string) returns (r: Checking)
      modifies this`outputItems
      ensures Updates(Reducer.ClaimOutputItem(old(View()), id, kind), r, View())
    {
      if id == "" || ByteLen(id) > MAX_ID_BYTES {
        return Err(BadUpstream("upstream item id is invalid"));
      }
      if id in outputItems && outputItems[id] != kind {
        return Err(BadUpstream("output item type changed"));
      }
      if id !in outputItems {
        outputItems := outputItems[id := kind];
      }
      if |outputItems| > MAX_OUTPUT_ITEMS {
        return Err(TooLarge("too many output items"));
      }
      return Ok(());
    }

    method NoteOutputItem(item: Item) returns (r: Checking)
      modifies this`outputItems
      ensures Updates(Reducer.NoteOutputItem(old(View()), item), r, View())
    {
      if item.kind.None? || item.kind.value == "" || ByteLen(item.kind.value) > MAX_KIND_BYTES {
        return Err(BadUpstream("output item type is invalid"));
      }
      r := ClaimOutputItem(if item.id.Some? then item.id.value else item.digestId, item.kind.value);
    }

    method AllocateIndex() returns (index: nat)
      modifies this`nextIndex
      ensures index == old(nextIndex) && nextIndex == old(nextIndex) + 1
    {
      index := nextIndex;
      nextIndex := nextIndex + 1;
    }

    method RequireNoActiveBlock() returns (r: Checking)
      ensures r == Reducer.RequireNoActiveBlock(View())
    {
      return if activeBlock.None? then Ok(()) else Err(BadUpstream("output blocks overlap"));
    }

    // ---------- Text ----------

    method EnsureText(id: string) returns (r: Emitting)
      modifies this
      ensures Follows(Reducer.EnsureText(old(View()), id), r, View()) && emitted == old(emitted)
    {
      if id in texts {
        return Ok([]);
      }
      r := OpenText(id);
    }

    method OpenText(id: string) returns (r: Emitting)
      modifies this
      ensures Follows(Reducer.OpenText(old(View()), id), r, View()) && emitted == old(emitted)
    {
      var _ :- RequireNoActiveBlock();
      var _ :- ReserveIdentity(id, TEXT_OVERHEAD);
      var index := StartText(id);
      return Ok([BlockStart(index, TextHead(""))]);
    }

    method StartText(id: string) returns (index: nat)
      modifies this`nextIndex, this`texts, this`blockOrder, this`activeBlock
      ensures index == old(nextIndex) && View() == Reducer.StartText(old(View()), id)
    {
      index := AllocateIndex();
      texts, blockOrder, activeBlock :=
        texts[id := TextState(index, "", false)], blockOrder + [TextKey(id)], Some(TextKey(id));
      assert View() == old(View()).(nextIndex := nextIndex, texts := texts, blockOrder := blockOrder, active := activeBlock);
    }

    method PushText(id: string, delta: string) returns (r: Emitting)
      modifies this
      ensures Follows(Reducer.PushText(old(View()), id, delta), r, View()) && emitted == old(emitted)
    {
      if activeBlock != Some(TextKey(id)) {
        return Err(BadUpstream("text blocks overlap"));
      }
      if id !in texts || texts[id].closed {
        return Err(BadUpstream("text delta arrived after item completed"));
      }
      var _ :- ReserveText(delta);
      var state := texts[id];
      texts := texts[id := state.(text := state.text + delta)];
      return Ok(if delta == "" then [] else [BlockDelta(state.index, TextDelta(delta))]);
    }

    method AppendText(id: string, delta: string) returns (r: Emitting)
      modifies this
      ensures Follows(Reducer.AppendText(context, old(View()), id, delta), r, View()) && emitted == old(emitted)
    {
      var out :- ClosePendingReasoning(None);
      var begun :- EnsureText(id);
      var pushed :- PushText(id, delta);
      return Ok(out + begun + pushed);
    }

    method FinishText(id: string) returns (r: Emitting)
      modifies this
      ensures Follows(Reducer.FinishText(old(View()), id), r, View()) && emitted == old(emitted)
    {
      if id !in texts {
        return Err(BadUpstream("text state is missing"));
      }
      var state := texts[id];
      if state.closed || activeBlock != Some(TextKey(id)) {
        return Err(BadUpstream("text item lifecycle is invalid"));
      }
      texts := texts[id := state.(closed := true)];
      activeBlock := None;
      return Ok([BlockStop(state.index)]);
    }

    method FinishMessageItem(item: Item) returns (r: Emitting)
      modifies this
      ensures Follows(Reducer.FinishMessageItem(context, old(View()), item), r, View()) && emitted == old(emitted)
    {
      var id :- RequiredId(item.id, "output item id is invalid");
      var out: seq<Event> := [];
      if id !in texts {
        out :- AppendText(id, item.content);
      } else if texts[id].text != item.content {
        return Err(BadUpstream("text deltas do not match completed item"));
      }
      var finished :- FinishText(id);
      return Ok(out + finished);
    }

    // ---------- Reasoning ----------

    method EnsureReasoning(id: string) returns (r: Emitting)
      modifies this
      ensures Follows(Reducer.EnsureReasoning(old(View()), id), r, View()) && emitted == old(emitted)
    {
      if id in reasoning {
        return Ok([]);
      }
      r := OpenReasoning(id);
    }

    method OpenReasoning(id: string) returns (r: Emitting)
      modifies this
      ensures Follows(Reducer.OpenReasoning(old(View()), id), r, View()) && emitted == old(emitted)
    {
      var _ :- RequireNoActiveBlock();
      var _ :- ReserveIdentity(id, REASONING_OVERHEAD);
      var index := StartReasoning(id);
      return Ok([BlockStart(index, ThinkingHead("", ""))]);
    }

    method StartReasoning(id: string) returns (index: nat)
      modifies this`nextIndex, this`reasoning, this`blockOrder, this`activeBlock
      ensures index == old(nextIndex) && View() == Reducer.StartReasoning(old(View()), id)
    {
      index := AllocateIndex();
      reasoning, blockOrder, activeBlock :=
        reasoning[id := ReasoningState(index, "", None, None, false, false)], blockOrder + [ReasoningKey(id)],
        Some(ReasoningKey(id));
      assert View()
          == old(View()).(nextIndex := nextIndex, reasoning := reasoning, blockOrder := blockOrder, active := activeBlock);
    }

    method PushReasoning(id: string, delta: string) returns (r: Emitting)
      modifies this
      ensures Follows(Reducer.PushReasoning(old(View()), id, delta), r, View()) && emitted == old(emitted)
    {
      if activeBlock != Some(ReasoningKey(id)) {
        return Err(BadUpstream("reasoning blocks overlap"));
      }
      if id !in reasoning || reasoning[id].done || reasoning[id].closed {
        return Err(BadUpstream("reasoning delta arrived after item completed"));
      }
      var _ :- ReserveReasoning(delta);
      var state := reasoning[id];
      reasoning := reasoning[id := state.(text := state.text + delta)];
      return Ok(if delta == "" then [] else [BlockDelta(state.index, ThinkingDelta(delta))]);
    }

    method AppendReasoning(id: string, delta: string) returns (r: Emitting)
      modifies this
      ensures Follows(Reducer.AppendReasoning(context, old(View()), id, delta), r, View()) && emitted == old(emitted)
    {
      var out: seq<Event> := [];
      if pendingReasoning.Some? && pendingReasoning.value != id {
        out :- ClosePendingReasoning(None);
      }
      var begun :- EnsureReasoning(id);
      var pushed :- PushReasoning(id, delta);
      return Ok(out + begun + pushed);
    }

    method SettleSummary(id: string, summary: string) returns (r: Emitting)
      modifies this
      ensures Follows(Reducer.SettleSummary(context, old(View()), id, summary), r, View()) && emitted == old(emitted)
    {
      if id !in reasoning || (reasoning[id].text == "" && summary != "") {
        r := AppendReasoning(id, summary);
      } else if summary != "" && reasoning[id].text != summary {
        return Err(BadUpstream("reasoning deltas do not match completed item"));
      } else {
        return Ok([]);
      }
    }

    method FinishReasoning(item: Item) returns (r: Emitting)
      modifies this
      ensures Follows(Reducer.FinishReasoning(context, old(View()), item), r, View()) && emitted == old(emitted)
    {
      var id :- RequiredId(item.id, "output item id is invalid");
      var out :- SettleSummary(id, item.summary);
      if item.encrypted.None? {
        return Err(BadUpstream("encrypted reasoning is missing"));
      }
      var _ :- HoldCiphertext(id, item.encrypted.value);
      return Ok(out);
    }

    method HoldCiphertext(id: string, encrypted: string) returns (r: Checking)
      modifies this
      ensures Updates(Reducer.HoldCiphertext(old(View()), id, encrypted), r, View()) && emitted == old(emitted)
    {
      if id !in reasoning {
        return Err(BadUpstream("reasoning state is missing"));
      }
      if reasoning[id].done || reasoning[id].closed {
        return Err(BadUpstream("reasoning item completed twice"));
      }
      var _ :- ReserveReasoningOpaque(encrypted);
      reasoning := reasoning[id := reasoning[id].(encrypted := Some(encrypted), done := true)];
      pendingReasoning := Some(id);
      return Ok(());
    }

    method ClosePendingReasoning(toolId: Option<string>) returns (r: Emitting)
      modifies this
      ensures Follows(Reducer.ClosePendingReasoning(context, old(View()), toolId), r, View()) && emitted == old(emitted)
    {
      if pendingReasoning.None? {
        return Ok([]);
      }
      var id := pendingReasoning.value;
      if activeBlock != Some(ReasoningKey(id)) {
        return Err(BadUpstream("reasoning item lifecycle is invalid"));
      }
      if id !in reasoning || reasoning[id].encrypted.None? {
        return Err(BadUpstream("encrypted reasoning is missing"));
      }
      var state := reasoning[id];
      var encrypted := state.encrypted.value;
      var signature :- context.signer.Seal(context.authEpoch, context.accountHash, id, toolId, encrypted);
      ReleaseStored(ByteLen(encrypted));
      var _ :- ReservePayload(ByteLen(signature), EscapedJsonLen(signature));
      MarkSealed(id, state.(encrypted := None, signature := Some(signature), closed := true), Seal(toolId, encrypted));
      return Ok([BlockDelta(state.index, SignatureDelta(signature)), BlockStop(state.index)]);
    }

    method MarkSealed(id: string, state: ReasoningState, ghost seal: Seal)
      modifies this`reasoning, this`pendingReasoning, this`activeBlock, this`seals
      ensures View() == Sealed(old(View()), id, state, seal)
    {
      ghost var was := View();
      reasoning, pendingReasoning, activeBlock := reasoning[id := state], None, None;
      seals := seals[id := seal];
      assert View() == was.(reasoning := reasoning, pending := None, active := None, seals := seals);
    }

    // ---------- Tools ----------

    method RegisterTool(item: Item) returns (r: Emitting)
      modifies this
      ensures Follows(Reducer.RegisterTool(context, old(View()), item), r, View()) && emitted == old(emitted)
    {
      var id :- RequiredId(item.id, "output item id is invalid");
      var callId := if item.callId.Some? then item.callId.value else id;
      var name := context.toolNames.AnthropicName(item.name);
      if callId == "" || name == "" || ByteLen(callId) > MAX_ID_BYTES || ByteLen(name) > MAX_ID_BYTES {
        return Err(BadUpstream("tool identity is invalid"));
      }
      if id in tools {
        if tools[id].callId != callId || tools[id].name != name || tools[id].closed {
          return Err(BadUpstream("tool identity changed"));
        }
        return Ok([]);
      }
      if |tools| >= MAX_TOOL_CALLS {
        return Err(TooLarge("too many tool calls"));
      }
      if callId in callIds && callIds[callId] != id {
        return Err(BadUpstream("tool call id is duplicated"));
      }
      var out :- ClosePendingReasoning(Some(callId));
      var _ :- AddTool(id, callId, name);
      return Ok(out);
    }

    method AddTool(id: string, callId: string, name: string) returns (r: Checking)
      modifies this
      ensures Updates(Reducer.AddTool(old(View()), id, callId, name), r, View()) && emitted == old(emitted)
    {
      var _ :- ReserveIdentity(id, TOOL_OVERHEAD);
      var _ :- ReserveIdentity(callId, 0);
      var _ :- ReserveIdentity(name, 0);
      ghost var was := View();
      callIds, tools := callIds[callId := id], tools[id := ToolState(None, callId, name, "", false)];
      assert View() == was.(callIds := callIds, tools := tools);
      return Ok(());
    }

    method StartRegisteredTool(id: string) returns (r: Emitting)
      modifies this
      ensures Follows(Reducer.StartRegisteredTool(old(View()), id), r, View()) && emitted == old(emitted)
    {
      if id in tools && tools[id].index.Some? {
        return if activeBlock != Some(ToolKey(id)) then Err(BadUpstream("tool blocks overlap")) else Ok([]);
      }
      var _ :- RequireNoActiveBlock();
      if id !in tools {
        return Err(BadUpstream("tool item is missing"));
      }
      var index := AllocateIndex();
      var state := tools[id];
      tools := tools[id := state.(index := Some(index))];
      blockOrder := blockOrder + [ToolKey(id)];
      activeBlock := Some(ToolKey(id));
      return Ok([BlockStart(index, ToolHead(state.callId, state.name))]);
    }

    method PushArguments(id: string, delta: string) returns (r: Emitting)
      modifies this
      ensures Follows(Reducer.PushArguments(old(View()), id, delta), r, View()) && emitted == old(emitted)
    {
      if id !in tools || tools[id].index.None? {
        return Err(BadUpstream("tool item is missing"));
      }
      if ByteLen(tools[id].arguments) + ByteLen(delta) > MAX_TOOL_ARGUMENT_BYTES {
        return Err(TooLarge("tool arguments are too large"));
      }
      var _ :- ReservePayload(ByteLen(delta), ByteLen(delta));
      var state := tools[id];
      tools := tools[id := state.(arguments := state.arguments + delta)];
      return Ok(if delta == "" then [] else [BlockDelta(state.index.value, InputJsonDelta(delta))]);
    }

    method AppendTool(id: string, callId: Option<string>, delta: string) returns (r: Emitting)
      modifies this
      ensures Follows(Reducer.AppendTool(old(View()), id, callId, delta), r, View()) && emitted == old(emitted)
    {
      if id !in tools {
        return Err(BadUpstream("tool argument delta arrived before tool item"));
      }
      if callId.Some? && callId.value != tools[id].callId {
        return Err(BadUpstream("tool call id changed"));
      }
      if tools[id].closed {
        return Err(BadUpstream("tool delta arrived after item completed"));
      }
      var out :- StartRegisteredTool(id);
      var pushed :- PushArguments(id, delta);
      return Ok(out + pushed);
    }

    method SettleArguments(id: string, item: Item) returns (r: Emitting)
      modifies this
      ensures Follows(Reducer.SettleArguments(old(View()), id, item), r, View()) && emitted == old(emitted)
    {
      if id !in tools {
        return Err(BadUpstream("tool item is missing"));
      }
      if tools[id].arguments == "" && item.arguments != "" {
        r := AppendTool(id, item.callId, item.arguments);
      } else if item.arguments != "" && tools[id].arguments != item.arguments {
        return Err(BadUpstream("tool argument deltas do not match completed item"));
      } else {
        return Ok([]);
      }
    }

    method FillArguments(id: string) returns (r: Checking)
      requires id in tools
      modifies this
      ensures Updates(Reducer.FillArguments(old(View()), id), r, View()) && emitted == old(emitted)
    {
      if tools[id].arguments == "" {
        var _ :- ReservePayload(2, 2);
        tools := tools[id := tools[id].(arguments := "{}")];
      }
      return Ok(());
    }

    method FillAndClose(id: string) returns (r: Emitting)
      modifies this
      ensures Follows(Reducer.FillAndClose(context, old(View()), id), r, View()) && emitted == old(emitted)
    {
      if id !in tools {
        return Err(BadUpstream("tool item is missing"));
      }
      var _ :- FillArguments(id);
      var state := tools[id];
      var parsed := context.codec.parse(state.arguments);
      if parsed.None? {
        return Err(BadUpstream("tool arguments are invalid"));
      }
      if !parsed.value.JObject? {
        return Err(BadUpstream("tool arguments must be an object"));
      }
      if state.closed || state.index.None? || activeBlock != Some(ToolKey(id)) {
        return Err(BadUpstream("tool item lifecycle is invalid"));
      }
      tools := tools[id := state.(closed := true)];
      activeBlock := None;
      return Ok([BlockStop(state.index.value)]);
    }

    method FinishTool(item: Item) returns (r: Emitting)
      modifies this
      ensures Follows(Reducer.FinishTool(context, old(View()), item), r, View()) && emitted == old(emitted)
    {
      var id :- RequiredId(item.id, "output item id is invalid");
      var out :- RegisterTool(item);
      var begun :- StartRegisteredTool(id);
      var settled :- SettleArguments(id, item);
      var closed :- FillAndClose(id);
      return Ok(out + begun + settled + closed);
    }

    // ---------- Envelope ----------

    method EnsureStarted() returns (out: seq<Event>)
      modifies this
      ensures Reducer.EnsureStarted(context, old(View())) == Emission(View(), out) && emitted == old(emitted)
    {
      if started {
        return [];
      }
      started := true;
      return [MessageStart(messageId, context.model, inputTokens)];
    }

    method ReadUsage(usage: Usage)
      modifies this`inputTokens, this`outputTokens
      ensures View() == Reducer.ReadUsage(old(View()), usage)
    {
      if usage.input.Some? {
        inputTokens := usage.input.value;
      }
      if usage.output.Some? {
        outputTokens := usage.output.value;
      }
    }

    method EnsureContent() returns (r: Emitting)
      modifies this
      ensures Follows(Reducer.EnsureContent(context, old(View())), r, View()) && emitted == old(emitted)
    {
      if || activeBlock.Some?
         || (exists k :: k in texts && !texts[k].closed)
         || (exists k :: k in reasoning && !reasoning[k].closed)
         || (exists k :: k in tools && !tools[k].closed)
      {
        return Err(BadUpstream("upstream completed with an open output item"));
      }
      if blockOrder != [] {
        return Ok([]);
      }
      r := EmptyOutput();
    }

    method EmptyOutput() returns (r: Emitting)
      modifies this
      ensures Follows(Reducer.EmptyOutput(context, old(View())), r, View()) && emitted == old(emitted)
    {
      var _ :- ClaimOutputItem(EMPTY_OUTPUT, "message");
      var out :- AppendText(EMPTY_OUTPUT, "");
      var finished :- FinishText(EMPTY_OUTPUT);
      return Ok(out + finished);
    }

    method FinishTerminal(usage: Usage, maxTokens: bool) returns (r: Emitting)
      modifies this
      ensures Follows(Reducer.FinishTerminal(context, old(View()), usage, maxTokens), r, View()) && emitted == old(emitted)
    {
      var start := EnsureStarted();
      var closed :- ClosePendingReasoning(None);
      var filled :- EnsureContent();
      ReadUsage(usage);
      completed := true;
      stopReason := if maxTokens then "max_tokens" else if |tools| == 0 then "end_turn" else "tool_use";
      return Ok(start + closed + filled + [MessageDelta(Some(stopReason), inputTokens, outputTokens), MessageStop]);
    }

    // ---------- Events ----------

    method Begin(responseId: Option<string>, usage: Usage) returns (r: Emitting)
      modifies this
      ensures Follows(Reducer.Begin(context, old(View()), responseId, usage), r, View()) && emitted == old(emitted)
    {
      if created || started {
        return Err(BadUpstream("response.created arrived more than once"));
      }
      created := true;
      if responseId.Some? {
        if responseId.value == "" || ByteLen(responseId.value) > MAX_ID_BYTES {
          return Err(BadUpstream("response id is invalid"));
        }
        messageId := responseId.value;
      }
      ReadUsage(usage);
      var out := EnsureStarted();
      return Ok(out);
    }

    method OnDelta(e: UpstreamEvent) returns (r: Emitting)
      requires e.OutputTextDelta? || e.ReasoningTextDelta? || e.ArgumentsDelta?
      modifies this
      ensures emitted == old(emitted)
      ensures
        var spec :=
          match e
          case OutputTextDelta(itemId, delta) => ApplyTextDelta(context, old(View()), itemId, delta)
          case ReasoningTextDelta(itemId, delta) => ApplyReasoningDelta(context, old(View()), itemId, delta)
          case ArgumentsDelta(itemId, callId, delta) => ApplyArgumentsDelta(context, old(View()), itemId, callId, delta);
        Follows(spec, r, View())
    {
      var start := EnsureStarted();
      var id :- RequiredId(e.itemId, "upstream item id is invalid");
      var kind := if e.OutputTextDelta? then "message" else if e.ReasoningTextDelta? then "reasoning" else "function_call";
      var _ :- ClaimOutputItem(id, kind);
      var out;
      match e {
        case OutputTextDelta(_, delta) => out :- AppendText(id, delta);
        case ReasoningTextDelta(_, delta) => out :- AppendReasoning(id, delta);
        case ArgumentsDelta(_, callId, delta) => out :- AppendTool(id, callId, delta);
      }
      return Ok(start + out);
    }

    method OnItemAdded(item: Item) returns (r: Emitting)
      modifies this
      ensures Follows(ApplyItemAdded(context, old(View()), item), r, View()) && emitted == old(emitted)
    {
      var start := EnsureStarted();
      var _ :- NoteOutputItem(item);
      var out: seq<Event> := [];
      if item.kind == Some("function_call") {
        out :- RegisterTool(item);
      }
      return Ok(start + out);
    }

    method OnItemDone(item: Item) returns (r: Emitting)
      modifies this
      ensures Follows(ApplyItemDone(context, old(View()), item), r, View()) && emitted == old(emitted)
    {
      var start := EnsureStarted();
      var _ :- NoteOutputItem(item);
      var out: seq<Event> := [];
      if item.kind == Some("reasoning") {
        out :- FinishReasoning(item);
      } else if item.kind == Some("function_call") {
        out :- FinishTool(item);
      } else if item.kind == Some("message") {
        out :- FinishMessageItem(item);
      }
      return Ok(start + out);
    }

    method OnTerminal(e: UpstreamEvent) returns (r: Emitting)
      requires created && !completed && !failed
      requires e.Completed? || e.Incomplete? || e.ResponseFailed? || e.StreamError?
      modifies this
      ensures Follows(Reducer.Apply(context, old(View()), e), r, View()) && emitted == old(emitted)
      ensures e.ResponseFailed? || e.StreamError? || (e.Incomplete? && e.reason != Some("max_output_tokens")) ==> failed
    {
      match e {
        case Completed(usage) =>
          r := FinishTerminal(usage, false);
        case Incomplete(reason, usage) =>
          if reason == Some("max_output_tokens") {
            r := FinishTerminal(usage, true);
          } else {
            failed := true;
            r := Err(BadUpstream("upstream response was incomplete"));
          }
        case ResponseFailed =>
          failed := true;
          r := Err(BadUpstream("upstream response failed"));
        case StreamError =>
          failed := true;
          r := Err(BadUpstream("upstream stream error"));
      }
    }

    method OnItem(e: UpstreamEvent) returns (r: Emitting)
      requires created && !completed && !failed
      requires e.OutputItemAdded? || e.OutputItemDone?
      modifies this
      ensures Follows(Reducer.Apply(context, old(View()), e), r, View()) && emitted == old(emitted)
    {
      if e.item.None? {
        return Err(BadUpstream("output item is missing"));
      }
      if e.OutputItemAdded? {
        r := OnItemAdded(e.item.value);
      } else {
        r := OnItemDone(e.item.value);
      }
    }

    method Dispatch(e: UpstreamEvent) returns (r: Emitting)
      modifies this
      ensures Follows(Reducer.Apply(context, old(View()), e), r, View()) && emitted == old(emitted)
    {
      if completed || failed {
        return Err(BadUpstream("event arrived after terminal response"));
      }
      if e.UntypedEvent? {
        return Err(BadUpstream("upstream event type is missing"));
      }
      if !e.Created? && !created {
        return Err(BadUpstream("response.created must be the first event"));
      }
      match e {
        case Created(responseId, usage) => r := Begin(responseId, usage);
        case OutputTextDelta(_, _) => r := OnDelta(e);
        case ReasoningTextDelta(_, _) => r := OnDelta(e);
        case ArgumentsDelta(_, _, _) => r := OnDelta(e);
        case OutputItemAdded(_) => r := OnItem(e);
        case OutputItemDone(_) => r := OnItem(e);
        case OtherEvent => r := Ok([]);
        case Completed(_) => r := OnTerminal(e);
        case Incomplete(_, _) => r := OnTerminal(e);
        case ResponseFailed => r := OnTerminal(e);
        case StreamError => r := OnTerminal(e);
      }
    }

    /** One event: what is emitted continues an accepted stream, and the fields keep mirroring it. */
    method Apply(e: UpstreamEvent) returns (r: Emitting)
      requires Valid()
      modifies this
      ensures Follows(Reducer.Apply(context, old(View()), e), r, View())
      ensures r.Ok? ==> Valid() && emitted == old(emitted) + r.value
    {
      ghost var before := View();
      r := Dispatch(e);
      if r.Ok? {
        ghost var l, m := Run(Initial, emitted).value, Assemble(EmptyMessage, emitted);
        Steps.ApplyKeeps(context, before, l, m, e);
        RunConcat(Initial, emitted, r.value);
        AssembleConcat(EmptyMessage, emitted, r.value);
        emitted := emitted + r.value;
      }
    }

    // ---------- The answer at once ----------

    /** Takes the blocks out of their tables one by one; an object so used up is not used again. */
    method NonstreamResponse(size: OneShotAnswer.Response -> nat)
      returns (r: Result<OneShotAnswer.Response, ProtocolError>)
      modifies this
      ensures r == OneShotAnswer.NonstreamResponse(context, old(View()), size)
    {
      if !completed {
        return Err(Unfinished("upstream stream ended before completion"));
      }
      if estimatedNonstreamBytes > MAX_NONSTREAM_BYTES {
        return Err(TooLarge("nonstream response is too large"));
      }
      var content :- TakeContent();
      var response := OneShotAnswer.Response(messageId, context.model, content, stopReason, inputTokens, outputTokens);
      if size(response) > MAX_NONSTREAM_BYTES {
        return Err(TooLarge("nonstream response is too large"));
      }
      return Ok(response);
    }

    method TakeContent() returns (r: Result<seq<OneShotAnswer.Content>, ProtocolError>)
      modifies this
      ensures r == OneShotAnswer.Collect(context, old(texts), old(reasoning), old(tools), old(blockOrder))
      ensures View() == old(View()).(blockOrder := blockOrder, texts := texts, reasoning := reasoning, tools := tools)
    {
      var content: seq<OneShotAnswer.Content> := [];
      var order := blockOrder;
      blockOrder := [];
      assert order[0..] == order;
      PrependNothing(OneShotAnswer.Collect(context, texts, reasoning, tools, order));
      for i := 0 to |order|
        invariant View() == old(View()).(blockOrder := [], texts := texts, reasoning := reasoning, tools := tools)
        invariant
          OneShotAnswer.Collect(context, old(texts), old(reasoning), old(tools), order)
          == Prepend(content, OneShotAnswer.Collect(context, texts, reasoning, tools, order[i..]))
      {
        assert order[i..][1..] == order[i + 1..];
        var piece :- TakeBlock(order[i], order[i..]);
        PrependTwice(content, [piece], OneShotAnswer.Collect(context, texts, reasoning, tools, order[i + 1..]));
        content := content + [piece];
      }
      assert content + [] == content;
      return Ok(content);
    }

    method TakeBlock(key: BlockKey, ghost order: seq<BlockKey>) returns (r: Result<OneShotAnswer.Content, ProtocolError>)
      requires order != [] && order[0] == key
      modifies this
      ensures Takes(key, old(texts), old(reasoning), old(tools), r)
      ensures
        match r
        case Ok(piece) =>
          OneShotAnswer.Collect(context, old(texts), old(reasoning), old(tools), order)
          == Prepend([piece], OneShotAnswer.Collect(context, texts, reasoning, tools, order[1..]))
        case Err(error) =>
          OneShotAnswer.Collect(context, old(texts), old(reasoning), old(tools), order) == Err(error)
      ensures View() == old(View()).(texts := texts, reasoning := reasoning, tools := tools)
    {
      match key {
        case ReasoningKey(k) => r := TakeThinking(k);
        case TextKey(k) => r := TakeText(k);
        case ToolKey(k) => r := TakeTool(k);
      }
    }

    /** What was under a key is handed out once. */
    ghost predicate Takes(
      key: BlockKey, texts': map<string, TextState>, reasoning': map<string, ReasoningState>,
      tools': map<string, ToolState>, r: Result<OneShotAnswer.Content, ProtocolError>)
      reads this
    {
      match key
      case ReasoningKey(k) =>
        && texts == texts' && tools == tools'
        && if k !in reasoning' then r == Err(BadUpstream("reasoning state is missing"))
           else
             && reasoning == reasoning' - {k}
             && r == (if reasoning'[k].signature.None? then Err(BadUpstream("reasoning signature is missing"))
                      else Ok(OneShotAnswer.Thinking(reasoning'[k].text, reasoning'[k].signature.value)))
      case TextKey(k) =>
        && reasoning == reasoning' && tools == tools'
        && if k !in texts' then r == Err(BadUpstream("text state is missing"))
           else texts == texts' - {k} && r == Ok(OneShotAnswer.Text(texts'[k].text))
      case ToolKey(k) =>
        && texts == texts' && reasoning == reasoning'
        && if k !in tools' then r == Err(BadUpstream("tool state is missing"))
           else
             var parsed := context.codec.parse(tools'[k].arguments);
             && tools == tools' - {k}
             && r == (if parsed.None? then Err(BadUpstream("tool arguments are invalid"))
                      else Ok(OneShotAnswer.ToolUse(tools'[k].callId, tools'[k].name, parsed.value)))
    }

    method TakeThinking(k: string) returns (r: Result<OneShotAnswer.Content, ProtocolError>)
      modifies this`reasoning
      ensures Takes(ReasoningKey(k), old(texts), old(reasoning), old(tools), r)
    {
      if k !in reasoning {
        return Err(BadUpstream("reasoning state is missing"));
      }
      var state := reasoning[k];
      reasoning := reasoning - {k};
      if state.signature.None? {
        return Err(BadUpstream("reasoning signature is missing"));
      }
      return Ok(OneShotAnswer.Thinking(state.text, state.signature.value));
    }

    method TakeText(k: string) returns (r: Result<OneShotAnswer.Content, ProtocolError>)
      modifies this`texts
      ensures Takes(TextKey(k), old(texts), old(reasoning), old(tools), r)
    {
      if k !in texts {
        return Err(BadUpstream("text state is missing"));
      }
      var state := texts[k];
      texts := texts - {k};
      return Ok(OneShotAnswer.Text(state.text));
    }

    method TakeTool(k: string) returns (r: Result<OneShotAnswer.Content, ProtocolError>)
      modifies this`tools
      ensures Takes(ToolKey(k), old(texts), old(reasoning), old(tools), r)
    {
      if k !in tools {
        return Err(BadUpstream("tool state is missing"));
      }
      var state := tools[k];
      tools := tools - {k};
      var parsed := context.codec.parse(state.arguments);
      if parsed.None? {
        return Err(BadUpstream("tool arguments are invalid"));
      }
      return Ok(OneShotAnswer.ToolUse(state.callId, state.name, parsed.value));
    }
  }

  function Prepend(done: seq<OneShotAnswer.Content>, rest: Result<seq<OneShotAnswer.Content>, ProtocolError>)
    : Result<seq<OneShotAnswer.Content>, ProtocolError>
  {
    match rest
    case Ok(more) => Ok(done + more)
    case Err(error) => Err(error)
  }

  lemma PrependTwice(
      a: seq<OneShotAnswer.Content>, b: seq<OneShotAnswer.Content>, rest: Result<seq<OneShotAnswer.Content>, ProtocolError>)
    ensures Prepend(a, Prepend(b, rest)) == Prepend(a + b, rest)
  {
    if rest.Ok? {
      assert a + (b + rest.value) == a + b + rest.value;
    }
  }

  lemma PrependNothing(rest: Result<seq<OneShotAnswer.Content>, ProtocolError>)
    ensures Prepend([], rest) == rest
  {
    if rest.Ok? {
      assert [] + rest.value == rest.value;
    }
  }
}
