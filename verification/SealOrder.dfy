/**
  A signature bound to no tool call is never followed by a tool block.

  A reasoning block is closed either by the registration of a tool call, which binds its signature to that call,
  or by something else, which binds it to none. The state records the order in which this happened. The lemmas
  follow one operation of the reducer after another: each adds at the end of that record, and a block sealed
  without a tool stands where no tool block can follow before another reasoning block.
 */
module SealOrder {
  import opened Wrappers
  import opened MessageStream
  import opened Reducer
  import opened ReducerInvariant
  import opened ReducerBudgets
  import opened ReducerSteps
  import opened ReducerRuns

  /** The i-th block is a reasoning block whose signature was sealed without a tool call. */
  ghost predicate Unbound(s: State, i: nat) {
    && i < |s.blockOrder| && s.blockOrder[i].ReasoningKey?
    && s.blockOrder[i].id in s.seals && s.seals[s.blockOrder[i].id].toolId.None?
  }

  ghost predicate Followed(s: State) {
    forall i: nat | Unbound(s, i) && i + 1 < |s.blockOrder| :: !s.blockOrder[i + 1].ToolKey?
  }

  ghost predicate TailFree(s: State) {
    s.blockOrder != [] ==> !Unbound(s, |s.blockOrder| - 1)
  }

  ghost predicate Bound(s: State) {
    Followed(s) && TailFree(s)
  }

  lemma SameOrder(s: State, s': State)
    requires s'.blockOrder == s.blockOrder && s'.seals == s.seals
    ensures Followed(s) ==> Followed(s')
    ensures TailFree(s) ==> TailFree(s')
  {
    assert forall i: nat :: Unbound(s', i) <==> Unbound(s, i);
  }

  lemma NextBlock(s: State, s': State, key: BlockKey)
    requires s'.blockOrder == s.blockOrder + [key] && s'.seals == s.seals
    requires Followed(s) && (key.ToolKey? ==> TailFree(s))
    requires key.ReasoningKey? ==> key.id !in s.seals
    ensures Bound(s')
  {
    assert forall i: nat | i < |s.blockOrder| :: Unbound(s', i) <==> Unbound(s, i);
  }

  lemma ClosePendingOrder(c: Context, s: State, toolId: Option<string>)
    requires Ordered(s) && Ciphered(c, s) && ClosePendingReasoning(c, s, toolId).Ok? && Bound(s)
    ensures
      var s' := ClosePendingReasoning(c, s, toolId).value.state;
      && Followed(s') && s'.blockOrder == s.blockOrder
      && (s.pending.None? || toolId.Some? ==> TailFree(s'))
      && (s.pending.Some? ==> s'.active.None?)
      && (s.pending.None? ==> s' == s)
  {
    if s.pending.Some? {
      var _ := ClosePendingState(c, s, toolId);
      ClosePendingFrame(c, s, toolId);
      SealedOrder(c, s, ClosePendingReasoning(c, s, toolId).value.state, toolId);
    }
  }

  /** Sealing concerns the last block only, which nothing follows yet. */
  lemma SealedOrder(c: Context, s: State, s': State, toolId: Option<string>)
    requires Ordered(s) && Ciphered(c, s) && Bound(s) && s.pending.Some?
    requires s'.blockOrder == s.blockOrder
    requires s.reasoning[s.pending.value].encrypted.Some?
    requires s'.seals == s.seals[s.pending.value := Seal(toolId, s.reasoning[s.pending.value].encrypted.value)]
    ensures Followed(s') && (toolId.Some? ==> TailFree(s'))
  {
    var id, last := s.pending.value, |s.blockOrder| - 1;
    forall i: nat | i < last ensures s.blockOrder[i] != ReasoningKey(id) {
      OnlyLast(s, id, i);
    }
    forall i: nat | Unbound(s', i) && i + 1 < |s'.blockOrder| ensures !s'.blockOrder[i + 1].ToolKey? {
      assert Unbound(s, i);
    }
  }

  lemma OnlyLast(s: State, id: string, i: nat)
    requires Ordered(s) && s.active == Some(ReasoningKey(id)) && i < |s.blockOrder| - 1
    ensures s.blockOrder[i] != ReasoningKey(id)
  {
    assert Backed(s, i) && Backed(s, |s.blockOrder| - 1);
  }

  lemma PushTextOrder(s: State, id: string, delta: string)
    requires PushText(s, id, delta).Ok?
    ensures s.active == Some(TextKey(id))
    ensures var s' := PushText(s, id, delta).value.state; s'.blockOrder == s.blockOrder && s'.seals == s.seals
  {
  }

  lemma PushReasoningOrder(s: State, id: string, delta: string)
    requires PushReasoning(s, id, delta).Ok?
    ensures s.active == Some(ReasoningKey(id))
    ensures var s' := PushReasoning(s, id, delta).value.state; s'.blockOrder == s.blockOrder && s'.seals == s.seals
  {
  }

  lemma AppendTextBound(c: Context, s: State, id: string, delta: string)
    requires Ordered(s) && Ciphered(c, s) && Bound(s) && AppendText(c, s, id, delta).Ok?
    ensures Bound(AppendText(c, s, id, delta).value.state)
  {
    var s1 := ClosePendingReasoning(c, s, None).value.state;
    var s2 := EnsureText(s1, id).value.state;
    ClosePendingOrder(c, s, None);
    PushTextOrder(s2, id, delta);
    if id !in s1.texts {
      NextBlock(s1, s2, TextKey(id));
    }
    SameOrder(s2, PushText(s2, id, delta).value.state);
  }

  lemma SealOtherOrder(c: Context, s: State, id: string)
    requires Ordered(s) && Ciphered(c, s) && Bound(s) && SealOther(c, s, id).Ok?
    ensures
      var s' := SealOther(c, s, id).value.state;
      && Followed(s') && Ciphered(c, s') && s'.blockOrder == s.blockOrder
      && (TailFree(s') || s'.active.None?)
  {
    if s.pending.Some? && s.pending.value != id {
      ClosePendingOrder(c, s, None);
      ClosePendingCiphered(c, s, None);
    }
  }

  lemma AppendReasoningBound(c: Context, s: State, id: string, delta: string)
    requires Ordered(s) && Ciphered(c, s) && Bound(s) && AppendReasoning(c, s, id, delta).Ok?
    ensures Bound(AppendReasoning(c, s, id, delta).value.state)
  {
    var s1 := SealOther(c, s, id).value.state;
    var s2 := EnsureReasoning(s1, id).value.state;
    SealOtherOrder(c, s, id);
    PushReasoningOrder(s2, id, delta);
    if id !in s1.reasoning {
      NextBlock(s1, s2, ReasoningKey(id));
    }
    SameOrder(s2, PushReasoning(s2, id, delta).value.state);
  }

  lemma RegisterToolSteps(c: Context, s: State, item: Item) returns (s1: State)
    requires RegisterTool(c, s, item).Ok?
    ensures item.id.Some?
    ensures
      if item.id.value in s.tools then s1 == s
      else
        var callId := Some(if item.callId.Some? then item.callId.value else item.id.value);
        ClosePendingReasoning(c, s, callId).Ok? && s1 == ClosePendingReasoning(c, s, callId).value.state
    ensures
      var s' := RegisterTool(c, s, item).value.state;
      s'.blockOrder == s1.blockOrder && s'.seals == s1.seals
  {
    var callId := if item.callId.Some? then item.callId.value else item.id.value;
    s1 := if item.id.value in s.tools then s else ClosePendingReasoning(c, s, Some(callId)).value.state;
  }

  lemma RegisterToolBound(c: Context, s: State, item: Item)
    requires Ordered(s) && Ciphered(c, s) && Bound(s) && RegisterTool(c, s, item).Ok?
    ensures Bound(RegisterTool(c, s, item).value.state)
  {
    var s1 := RegisterToolSteps(c, s, item);
    if item.id.value !in s.tools {
      ClosePendingOrder(c, s, Some(if item.callId.Some? then item.callId.value else item.id.value));
    }
    SameOrder(s1, RegisterTool(c, s, item).value.state);
  }

  lemma StartToolBound(s: State, id: string)
    requires Bound(s) && StartRegisteredTool(s, id).Ok?
    ensures Bound(StartRegisteredTool(s, id).value.state)
  {
    if !(id in s.tools && s.tools[id].index.Some?) {
      NextBlock(s, StartRegisteredTool(s, id).value.state, ToolKey(id));
    }
  }

  lemma AppendToolBound(s: State, id: string, callId: Option<string>, delta: string)
    requires Bound(s) && AppendTool(s, id, callId, delta).Ok?
    ensures Bound(AppendTool(s, id, callId, delta).value.state)
  {
    StartToolBound(s, id);
    var s1 := StartRegisteredTool(s, id).value.state;
    SameOrder(s1, PushArguments(s1, id, delta).value.state);
  }

  lemma FinishToolSteps(c: Context, s: State, item: Item) returns (s1: State, s2: State, s3: State)
    requires FinishTool(c, s, item).Ok?
    ensures item.id.Some? && RegisterTool(c, s, item).Ok? && s1 == RegisterTool(c, s, item).value.state
    ensures StartRegisteredTool(s1, item.id.value).Ok? && s2 == StartRegisteredTool(s1, item.id.value).value.state
    ensures
      || s3 == s2
      || (AppendTool(s2, item.id.value, item.callId, item.arguments).Ok?
          && s3 == AppendTool(s2, item.id.value, item.callId, item.arguments).value.state)
    ensures FillAndClose(c, s3, item.id.value).Ok?
    ensures FinishTool(c, s, item).value.state == FillAndClose(c, s3, item.id.value).value.state
  {
    s1 := RegisterTool(c, s, item).value.state;
    s2 := StartRegisteredTool(s1, item.id.value).value.state;
    s3 := SettleArguments(s2, item.id.value, item).value.state;
  }

  lemma FillAndCloseOrder(c: Context, s: State, id: string)
    requires FillAndClose(c, s, id).Ok?
    ensures
      var s' := FillAndClose(c, s, id).value.state;
      s'.blockOrder == s.blockOrder && s'.seals == s.seals
  {
  }

  lemma FinishToolBound(c: Context, s: State, item: Item)
    requires Ordered(s) && Ciphered(c, s) && Bound(s) && FinishTool(c, s, item).Ok?
    ensures Bound(FinishTool(c, s, item).value.state)
  {
    var s1, s2, s3 := FinishToolSteps(c, s, item);
    RegisterToolBound(c, s, item);
    StartToolBound(s1, item.id.value);
    if s3 != s2 {
      AppendToolBound(s2, item.id.value, item.callId, item.arguments);
    }
    FillAndCloseOrder(c, s3, item.id.value);
    SameOrder(s3, FillAndClose(c, s3, item.id.value).value.state);
  }

  lemma SettleSummaryBound(c: Context, s: State, id: string, summary: string)
    requires Ordered(s) && Ciphered(c, s) && Bound(s) && SettleSummary(c, s, id, summary).Ok?
    ensures Bound(SettleSummary(c, s, id, summary).value.state)
  {
    if id !in s.reasoning || (s.reasoning[id].text == "" && summary != "") {
      AppendReasoningBound(c, s, id, summary);
    }
  }

  lemma FinishReasoningBound(c: Context, s: State, item: Item)
    requires Ordered(s) && Ciphered(c, s) && Bound(s) && FinishReasoning(c, s, item).Ok?
    ensures Bound(FinishReasoning(c, s, item).value.state)
  {
    var s1 := SettleSummary(c, s, item.id.value, item.summary).value.state;
    SettleSummaryBound(c, s, item.id.value, item.summary);
    HoldCiphertextOrder(s1, item.id.value, item.encrypted.value);
    SameOrder(s1, HoldCiphertext(s1, item.id.value, item.encrypted.value).value);
  }

  lemma HoldCiphertextOrder(s: State, id: string, encrypted: string)
    requires HoldCiphertext(s, id, encrypted).Ok?
    ensures var s' := HoldCiphertext(s, id, encrypted).value; s'.blockOrder == s.blockOrder && s'.seals == s.seals
  {
  }

  lemma FinishMessageBound(c: Context, s: State, item: Item)
    requires Ordered(s) && Ciphered(c, s) && Bound(s) && FinishMessageItem(c, s, item).Ok?
    ensures Bound(FinishMessageItem(c, s, item).value.state)
  {
    var id := item.id.value;
    var s1 := s;
    if id !in s.texts {
      AppendTextBound(c, s, id, item.content);
      s1 := AppendText(c, s, id, item.content).value.state;
    }
    SameOrder(s1, FinishText(s1, id).value.state);
  }

  lemma FinishTerminalFollowed(c: Context, s: State, l: Life, m: Message, usage: Usage, maxTokens: bool)
    requires Underway(c, s, l, m) && Bound(s) && FinishTerminal(c, s, usage, maxTokens).Ok?
    ensures Followed(FinishTerminal(c, s, usage, maxTokens).value.state)
  {
    ClosePendingOrder(c, s, None);
    ClosePendingCiphered(c, s, None);
    ClosePendingKeeps(c, s, l, m, None);
    var s1 := ClosePendingReasoning(c, s, None).value.state;
    if s1.blockOrder == [] {
      EmptyOutputFollowed(c, s1);
    }
    SameOrder(EnsureContent(c, s1).value.state, FinishTerminal(c, s, usage, maxTokens).value.state);
  }

  lemma EmptyOutputFollowed(c: Context, s: State)
    requires Ordered(s) && Ciphered(c, s) && s.blockOrder == [] && EmptyOutput(c, s).Ok?
    ensures Followed(EmptyOutput(c, s).value.state)
  {
    ClaimFacts(s, EMPTY_OUTPUT, "message");
    EmptyTextFollowed(c, s, ClaimOutputItem(s, EMPTY_OUTPUT, "message").value);
  }

  lemma EmptyTextFollowed(c: Context, s: State, s1: State)
    requires Ordered(s) && Ciphered(c, s) && s.blockOrder == [] && s1 == s.(outputItems := s1.outputItems)
    requires AppendText(c, s1, EMPTY_OUTPUT, "").Ok?
    requires FinishText(AppendText(c, s1, EMPTY_OUTPUT, "").value.state, EMPTY_OUTPUT).Ok?
    ensures Followed(FinishText(AppendText(c, s1, EMPTY_OUTPUT, "").value.state, EMPTY_OUTPUT).value.state)
  {
    EmptyOrdered(c, s, s1);
    AppendTextBound(c, s1, EMPTY_OUTPUT, "");
    var s2 := AppendText(c, s1, EMPTY_OUTPUT, "").value.state;
    FinishTextOrder(s2, EMPTY_OUTPUT);
    SameOrder(s2, FinishText(s2, EMPTY_OUTPUT).value.state);
  }

  lemma EmptyOrdered(c: Context, s: State, s1: State)
    requires Ordered(s) && Ciphered(c, s) && s.blockOrder == [] && s1 == s.(outputItems := s1.outputItems)
    ensures Ordered(s1) && Ciphered(c, s1) && Bound(s1)
  {
    CipheredFrame(c, s, s1);
    forall key ensures Listed(s1, key) {
      assert Listed(s, key);
    }
  }

  lemma FinishTextOrder(s: State, id: string)
    requires FinishText(s, id).Ok?
    ensures var s' := FinishText(s, id).value.state; s'.blockOrder == s.blockOrder && s'.seals == s.seals
  {
  }

  lemma NotedBound(c: Context, s: State, l: Life, m: Message, item: Item)
    requires Underway(c, s, l, m) && Bound(s) && NoteOutputItem(s, item).Ok?
    ensures var s' := NoteOutputItem(s, item).value; Ordered(s') && Ciphered(c, s') && Bound(s')
  {
    NoteKeeps(c, s, l, m, item);
    SameOrder(s, NoteOutputItem(s, item).value);
  }

  lemma ItemDoneBound(c: Context, s: State, l: Life, m: Message, item: Item)
    requires Underway(c, s, l, m) && Bound(s) && ApplyItemDone(c, s, item).Ok?
    ensures Bound(ApplyItemDone(c, s, item).value.state)
  {
    NotedBound(c, s, l, m, item);
    var noted := NoteOutputItem(s, item).value;
    if item.kind == Some("reasoning") {
      FinishReasoningBound(c, noted, item);
    } else if item.kind == Some("function_call") {
      FinishToolBound(c, noted, item);
    } else if item.kind == Some("message") {
      FinishMessageBound(c, noted, item);
    }
  }

  lemma ItemAddedBound(c: Context, s: State, l: Life, m: Message, item: Item)
    requires Underway(c, s, l, m) && Bound(s) && ApplyItemAdded(c, s, item).Ok?
    ensures Bound(ApplyItemAdded(c, s, item).value.state)
  {
    NotedBound(c, s, l, m, item);
    if item.kind == Some("function_call") {
      RegisterToolBound(c, NoteOutputItem(s, item).value, item);
    }
  }

  lemma ClaimedBound(c: Context, s: State, l: Life, m: Message, id: string, kind: string)
    requires Underway(c, s, l, m) && Bound(s) && ClaimOutputItem(s, id, kind).Ok?
    ensures var s' := ClaimOutputItem(s, id, kind).value; Ordered(s') && Ciphered(c, s') && Bound(s')
  {
    ClaimKeeps(c, s, l, m, id, kind);
    SameOrder(s, ClaimOutputItem(s, id, kind).value);
  }

  lemma DeltaBound(c: Context, s: State, l: Life, m: Message, e: UpstreamEvent)
    requires Underway(c, s, l, m) && Bound(s) && Apply(c, s, e).Ok?
    requires e.OutputTextDelta? || e.ReasoningTextDelta? || e.ArgumentsDelta?
    ensures Bound(Apply(c, s, e).value.state)
  {
    var kind := if e.OutputTextDelta? then "message" else if e.ReasoningTextDelta? then "reasoning" else "function_call";
    ClaimedBound(c, s, l, m, e.itemId.value, kind);
    var claimed := ClaimOutputItem(s, e.itemId.value, kind).value;
    match e
    case OutputTextDelta(itemId, delta) => AppendTextBound(c, claimed, itemId.value, delta);
    case ReasoningTextDelta(itemId, delta) => AppendReasoningBound(c, claimed, itemId.value, delta);
    case ArgumentsDelta(itemId, callId, delta) => AppendToolBound(claimed, itemId.value, callId, delta);
  }

  lemma ApplyBound(c: Context, s: State, l: Life, m: Message, e: UpstreamEvent)
    requires RunInv(c, s, l, m) && Bound(s) && Apply(c, s, e).Ok?
    ensures
      var s' := Apply(c, s, e).value.state;
      Followed(s') && (!s'.completed ==> Bound(s'))
  {
    var s' := Apply(c, s, e).value.state;
    match e
    case OutputItemDone(item) => ItemDoneBound(c, s, l, m, item.value);
    case OutputItemAdded(item) => ItemAddedBound(c, s, l, m, item.value);
    case Completed(usage) =>
      FinishTerminalKeeps(c, s, l, m, usage, false);
      FinishTerminalFollowed(c, s, l, m, usage, false);
    case Incomplete(reason, usage) =>
      FinishTerminalKeeps(c, s, l, m, usage, true);
      FinishTerminalFollowed(c, s, l, m, usage, true);
    case Created(_, _) => SameOrder(s, s');
    case OtherEvent =>
    case _ => DeltaBound(c, s, l, m, e);
  }

  /** In every reachable state: a block whose signature names no call is not followed by a tool call. */
  lemma {:induction false} ReachableIsFollowed(c: Context, es: seq<UpstreamEvent>)
    requires RunAll(c, es).Ok?
    ensures
      var s := RunAll(c, es).value.state;
      Followed(s) && (!s.completed ==> Bound(s))
  {
    if es != [] {
      var before := es[..|es| - 1];
      ReachableIsFollowed(c, before);
      RunKeeps(c, before);
      var e := RunAll(c, before).value;
      ApplyBound(c, e.state, Run(Initial, e.out).value, Assemble(EmptyMessage, e.out), es[|es| - 1]);
    }
  }
}
