/**
  Runs of the reducer: what holds after any sequence of upstream events, up to the first error.

  Each kind of upstream event is a sequence of the operations whose lemmas stand in the module about steps.
 */
module ReducerRuns {
  import opened Wrappers
  import opened MessageStream
  import opened ThinkingSignature
  import opened Reducer
  import opened ReducerInvariant
  import opened ReducerBudgets
  import opened ReducerSteps

  /** A completed state has nothing open, at least one block, and the ending the stream announced. */
  ghost predicate Settled(s: State, m: Message) {
    s.completed ==>
      && s.active.None? && !AnyOpen(s) && s.blockOrder != []
      && m.stopReason == Some(s.stopReason) && m.inputTokens == s.inputTokens && m.outputTokens == s.outputTokens
      && (s.stopReason == "tool_use" ==> |s.tools| > 0)
  }

  ghost predicate RunInv(c: Context, s: State, l: Life, m: Message) {
    Inv(c, s, l, m) && Settled(s, m) && !s.failed
  }

  lemma FreshInv(c: Context)
    ensures RunInv(c, Fresh, Initial, EmptyMessage)
  {
  }

  lemma ClaimFacts(s: State, id: string, kind: string)
    requires ClaimOutputItem(s, id, kind).Ok?
    ensures
      var s' := ClaimOutputItem(s, id, kind).value;
      && s' == s.(outputItems := s'.outputItems)
      && Claimed(s', id, kind) && |s'.outputItems| <= MAX_OUTPUT_ITEMS
      && (forall k | k in s.outputItems :: k in s'.outputItems && s'.outputItems[k] == s.outputItems[k])
  {
  }

  lemma ClaimKeeps(c: Context, s: State, l: Life, m: Message, id: string, kind: string)
    requires Inv(c, s, l, m) && ClaimOutputItem(s, id, kind).Ok?
    ensures
      var s' := ClaimOutputItem(s, id, kind).value;
      Inv(c, s', l, m) && Claimed(s', id, kind) && SameEnvelope(s, s') && s' == s.(outputItems := s'.outputItems)
  {
    ClaimFacts(s, id, kind);
    MoreItems(c, s, ClaimOutputItem(s, id, kind).value, l, m);
  }

  lemma MoreItems(c: Context, s: State, s': State, l: Life, m: Message)
    requires Inv(c, s, l, m) && s' == s.(outputItems := s'.outputItems)
    requires |s'.outputItems| <= MAX_OUTPUT_ITEMS
    requires forall k | k in s.outputItems :: k in s'.outputItems && s'.outputItems[k] == s.outputItems[k]
    ensures Inv(c, s', l, m)
  {
    LayoutFrame(c, s, s', l, m);
    CipheredFrame(c, s, s');
    BalancedFrame(s, s');
    forall k | k in s'.tools ensures ToolNamed(c, s', k) {
      assert ToolNamed(c, s, k);
    }
  }

  ghost predicate EnvelopeOnly(s: State, s': State) {
    s' == s.(messageId := s'.messageId, created := s'.created, started := s'.started, completed := s'.completed,
             inputTokens := s'.inputTokens, outputTokens := s'.outputTokens, stopReason := s'.stopReason)
  }

  lemma EnvelopeOrdered(s: State, s': State)
    requires Ordered(s) && EnvelopeOnly(s, s')
    ensures Ordered(s')
  {
    forall i: nat | i < |s'.blockOrder| ensures Backed(s', i) {
      assert Backed(s, i);
    }
    forall key ensures Listed(s', key) {
      assert Listed(s, key);
    }
  }

  /** Ordering and accounting do not depend on the envelope or on usage. */
  lemma EnvelopeFrame(c: Context, s: State, s': State)
    requires Ordered(s) && Unstarted(s) && Ciphered(c, s) && Identified(c, s) && Balanced(s)
    requires EnvelopeOnly(s, s')
    ensures Ordered(s') && Unstarted(s') && Ciphered(c, s') && Identified(c, s') && Balanced(s')
  {
    EnvelopeOrdered(s, s');
    CipheredFrame(c, s, s');
    IdentifiedFrame(c, s, s');
    BalancedFrame(s, s');
  }

  lemma BeginKeeps(c: Context, s: State, l: Life, m: Message, id: Option<string>, usage: Usage)
    requires RunInv(c, s, l, m) && Begin(c, s, id, usage).Ok?
    ensures var e := Begin(c, s, id, usage).value; Keeps(c, e, l, m) && !e.state.completed && !e.state.failed
  {
    var e := Begin(c, s, id, usage).value;
    One(l, m, e.out[0]);
    EnvelopeFrame(c, s, e.state);
  }

  // ---------- The end of a response ----------

  ghost predicate ToolsClosed(s: State) {
    forall k | k in s.tools :: s.tools[k].closed
  }

  /** With no active block and every registered tool closed, nothing is open. */
  lemma AllClosed(s: State)
    requires Ordered(s) && s.active.None? && ToolsClosed(s)
    ensures !AnyOpen(s)
  {
    forall k | k in s.texts ensures s.texts[k].closed {
      assert Listed(s, TextKey(k)) && Backed(s, s.texts[k].index);
    }
    forall k | k in s.reasoning ensures s.reasoning[k].closed {
      assert Listed(s, ReasoningKey(k)) && Backed(s, s.reasoning[k].index);
    }
  }

  lemma AppendTextFrame(c: Context, s: State, id: string, delta: string)
    requires AppendText(c, s, id, delta).Ok?
    ensures
      var s' := AppendText(c, s, id, delta).value.state;
      s'.tools == s.tools && id in s'.texts && s'.active == Some(TextKey(id))
  {
    ClosePendingFrame(c, s, None);
  }

  lemma EmptyOutputKeeps(c: Context, s: State, l: Life, m: Message)
    requires Underway(c, s, l, m) && ToolsClosed(s) && EmptyOutput(c, s).Ok?
    ensures
      var e := EmptyOutput(c, s).value;
      Keeps(c, e, l, m) && SameEnvelope(s, e.state) && e.state.active.None? && ToolsClosed(e.state) && e.state.blockOrder != []
  {
    ClaimKeeps(c, s, l, m, EMPTY_OUTPUT, "message");
    var claimed := ClaimOutputItem(s, EMPTY_OUTPUT, "message").value;
    EmptyTextKeeps(c, claimed, l, m);
  }

  lemma EmptyTextKeeps(c: Context, s: State, l: Life, m: Message)
    requires Underway(c, s, l, m) && ToolsClosed(s) && Claimed(s, EMPTY_OUTPUT, "message")
    requires AppendText(c, s, EMPTY_OUTPUT, "").Ok?
    requires FinishText(AppendText(c, s, EMPTY_OUTPUT, "").value.state, EMPTY_OUTPUT).Ok?
    ensures
      var e := AppendText(c, s, EMPTY_OUTPUT, "").value;
      var f := FinishText(e.state, EMPTY_OUTPUT).value;
      && Continues(c, s, Emission(f.state, e.out + f.out), l, m)
      && f.state.active.None? && ToolsClosed(f.state) && f.state.blockOrder != []
  {
    var e := AppendText(c, s, EMPTY_OUTPUT, "").value;
    AppendTextKeeps(c, s, l, m, EMPTY_OUTPUT, "");
    AppendTextFrame(c, s, EMPTY_OUTPUT, "");
    FinishTextKeeps(c, e.state, Run(l, e.out).value, Assemble(m, e.out), EMPTY_OUTPUT);
    Chain(c, s, e, FinishText(e.state, EMPTY_OUTPUT).value, l, m);
  }

  lemma EnsureContentKeeps(c: Context, s: State, l: Life, m: Message)
    requires Underway(c, s, l, m) && EnsureContent(c, s).Ok?
    ensures
      var e := EnsureContent(c, s).value;
      && Keeps(c, e, l, m) && SameEnvelope(s, e.state)
      && e.state.active.None? && !AnyOpen(e.state) && e.state.blockOrder != []
  {
    if s.blockOrder == [] {
      EmptyOutputKeeps(c, s, l, m);
      AllClosed(EmptyOutput(c, s).value.state);
    }
  }

  lemma ConcludeMirrors(c: Context, s: State, l: Life, m: Message, usage: Usage, maxTokens: bool)
    requires Mirrors(c, s, l, m) && s.started && !s.completed && s.active.None?
    ensures
      var e := Conclude(s, usage, maxTokens);
      && Run(l, e.out).Some?
      && Mirrors(c, e.state, Run(l, e.out).value, Assemble(m, e.out))
      && Assemble(m, e.out) == m.(stopReason := Some(e.state.stopReason), inputTokens := e.state.inputTokens, outputTokens := e.state.outputTokens)
  {
    var e := Conclude(s, usage, maxTokens);
    Two(l, m, e.out[0], e.out[1]);
    var m' := Assemble(m, e.out);
    forall i: nat | i < |m'.blocks| ensures ShowsAt(m', e.state, i) {
      assert ShowsAt(m, s, i);
    }
  }

  lemma ConcludeKeeps(c: Context, s: State, l: Life, m: Message, usage: Usage, maxTokens: bool)
    requires Underway(c, s, l, m) && s.active.None? && !AnyOpen(s) && s.blockOrder != [] && !s.failed
    ensures
      var e := Conclude(s, usage, maxTokens);
      && Run(l, e.out).Some?
      && RunInv(c, e.state, Run(l, e.out).value, Assemble(m, e.out))
  {
    ConcludeMirrors(c, s, l, m, usage, maxTokens);
    EnvelopeFrame(c, s, Conclude(s, usage, maxTokens).state);
  }

  lemma FinishTerminalKeeps(c: Context, s: State, l: Life, m: Message, usage: Usage, maxTokens: bool)
    requires Underway(c, s, l, m) && !s.failed && FinishTerminal(c, s, usage, maxTokens).Ok?
    ensures
      var e := FinishTerminal(c, s, usage, maxTokens).value;
      && Run(l, e.out).Some?
      && RunInv(c, e.state, Run(l, e.out).value, Assemble(m, e.out))
      && e.state.completed
  {
    var e := ClosePendingReasoning(c, s, None).value;
    ClosePendingKeeps(c, s, l, m, None);
    assert [] + e.out == e.out;
    FilledKeeps(c, s, e, l, m, usage, maxTokens);
  }

  lemma FilledKeeps(c: Context, s: State, e: Emission, l: Life, m: Message, usage: Usage, maxTokens: bool)
    requires Continues(c, s, e, l, m) && s.started && !s.completed && !s.failed && EnsureContent(c, e.state).Ok?
    ensures
      var f := EnsureContent(c, e.state).value;
      var g := Conclude(f.state, usage, maxTokens);
      var out := e.out + f.out + g.out;
      Run(l, out).Some? && RunInv(c, g.state, Run(l, out).value, Assemble(m, out)) && g.state.completed
  {
    var l1, m1 := Run(l, e.out).value, Assemble(m, e.out);
    var f := EnsureContent(c, e.state).value;
    EnsureContentKeeps(c, e.state, l1, m1);
    Then(l, m, e.out, f.out);
    ConcludeKeeps(c, f.state, Run(l1, f.out).value, Assemble(m1, f.out), usage, maxTokens);
    Then(l, m, e.out + f.out, Conclude(f.state, usage, maxTokens).out);
  }

  // ---------- One event ----------

  lemma TextDeltaKeeps(c: Context, s: State, l: Life, m: Message, itemId: Option<string>, delta: string)
    requires Underway(c, s, l, m) && ApplyTextDelta(c, s, itemId, delta).Ok?
    ensures var e := ApplyTextDelta(c, s, itemId, delta).value; Keeps(c, e, l, m) && SameEnvelope(s, e.state)
  {
    ClaimKeeps(c, s, l, m, itemId.value, "message");
    var claimed := ClaimOutputItem(s, itemId.value, "message").value;
    AppendTextKeeps(c, claimed, l, m, itemId.value, delta);
    var e := AppendText(c, claimed, itemId.value, delta).value;
    assert [] + e.out == e.out;
  }

  lemma ReasoningDeltaKeeps(c: Context, s: State, l: Life, m: Message, itemId: Option<string>, delta: string)
    requires Underway(c, s, l, m) && ApplyReasoningDelta(c, s, itemId, delta).Ok?
    ensures var e := ApplyReasoningDelta(c, s, itemId, delta).value; Keeps(c, e, l, m) && SameEnvelope(s, e.state)
  {
    ClaimKeeps(c, s, l, m, itemId.value, "reasoning");
    var claimed := ClaimOutputItem(s, itemId.value, "reasoning").value;
    AppendReasoningKeeps(c, claimed, l, m, itemId.value, delta);
    var e := AppendReasoning(c, claimed, itemId.value, delta).value;
    assert [] + e.out == e.out;
  }

  lemma ArgumentsDeltaKeeps(
      c: Context, s: State, l: Life, m: Message, itemId: Option<string>, callId: Option<string>, delta: string)
    requires Underway(c, s, l, m) && ApplyArgumentsDelta(c, s, itemId, callId, delta).Ok?
    ensures
      var e := ApplyArgumentsDelta(c, s, itemId, callId, delta).value; Keeps(c, e, l, m) && SameEnvelope(s, e.state)
  {
    ClaimKeeps(c, s, l, m, itemId.value, "function_call");
    var claimed := ClaimOutputItem(s, itemId.value, "function_call").value;
    AppendToolKeeps(c, claimed, l, m, itemId.value, callId, delta);
    var e := AppendTool(claimed, itemId.value, callId, delta).value;
    assert [] + e.out == e.out;
  }

  lemma NoteKeeps(c: Context, s: State, l: Life, m: Message, item: Item)
    requires Underway(c, s, l, m) && NoteOutputItem(s, item).Ok?
    ensures item.kind.Some?
    ensures
      var s' := NoteOutputItem(s, item).value;
      && Underway(c, s', l, m) && SameEnvelope(s, s')
      && (item.id.Some? ==> Claimed(s', item.id.value, item.kind.value))
  {
    ClaimKeeps(c, s, l, m, if item.id.Some? then item.id.value else item.digestId, item.kind.value);
  }

  lemma ItemAddedKeeps(c: Context, s: State, l: Life, m: Message, item: Item)
    requires Underway(c, s, l, m) && ApplyItemAdded(c, s, item).Ok?
    ensures var e := ApplyItemAdded(c, s, item).value; Keeps(c, e, l, m) && SameEnvelope(s, e.state)
  {
    NoteKeeps(c, s, l, m, item);
    var noted := NoteOutputItem(s, item).value;
    if item.kind == Some("function_call") {
      RegisterToolKeeps(c, noted, l, m, item);
      var e := RegisterTool(c, noted, item).value;
      assert [] + e.out == e.out;
    }
  }

  lemma ItemDoneKeeps(c: Context, s: State, l: Life, m: Message, item: Item)
    requires Underway(c, s, l, m) && ApplyItemDone(c, s, item).Ok?
    ensures var e := ApplyItemDone(c, s, item).value; Keeps(c, e, l, m) && SameEnvelope(s, e.state)
  {
    NoteKeeps(c, s, l, m, item);
    var noted := NoteOutputItem(s, item).value;
    if item.kind == Some("reasoning") {
      FinishReasoningKeeps(c, noted, l, m, item);
      var e := FinishReasoning(c, noted, item).value;
      assert [] + e.out == e.out;
    } else if item.kind == Some("function_call") {
      FinishToolKeeps(c, noted, l, m, item);
      var e := FinishTool(c, noted, item).value;
      assert [] + e.out == e.out;
    } else if item.kind == Some("message") {
      FinishMessageItemKeeps(c, noted, l, m, item);
      var e := FinishMessageItem(c, noted, item).value;
      assert [] + e.out == e.out;
    }
  }

  /** No upstream event breaks the invariant: it is refused, or what it emits is accepted next. */
  lemma ApplyKeeps(c: Context, s: State, l: Life, m: Message, e: UpstreamEvent)
    requires RunInv(c, s, l, m) && Apply(c, s, e).Ok?
    ensures
      var now := Apply(c, s, e).value;
      && Run(l, now.out).Some?
      && RunInv(c, now.state, Run(l, now.out).value, Assemble(m, now.out))
  {
    match e
    case Created(responseId, usage) => BeginKeeps(c, s, l, m, responseId, usage);
    case OutputTextDelta(itemId, delta) => TextDeltaKeeps(c, s, l, m, itemId, delta);
    case ReasoningTextDelta(itemId, delta) => ReasoningDeltaKeeps(c, s, l, m, itemId, delta);
    case ArgumentsDelta(itemId, callId, delta) => ArgumentsDeltaKeeps(c, s, l, m, itemId, callId, delta);
    case OutputItemAdded(item) => ItemAddedKeeps(c, s, l, m, item.value);
    case OutputItemDone(item) => ItemDoneKeeps(c, s, l, m, item.value);
    case Completed(usage) => FinishTerminalKeeps(c, s, l, m, usage, false);
    case Incomplete(reason, usage) => FinishTerminalKeeps(c, s, l, m, usage, true);
    case OtherEvent =>
    case _ =>
  }

  // ---------- Whole runs ----------

  lemma {:induction false} RunKeeps(c: Context, es: seq<UpstreamEvent>)
    requires RunAll(c, es).Ok?
    ensures
      var e := RunAll(c, es).value;
      && AcceptedSoFar(e.out)
      && RunInv(c, e.state, Run(Initial, e.out).value, Assemble(EmptyMessage, e.out))
  {
    if es == [] {
      FreshInv(c);
    } else {
      RunKeeps(c, es[..|es| - 1]);
      var before := RunAll(c, es[..|es| - 1]).value;
      var l, m := Run(Initial, before.out).value, Assemble(EmptyMessage, before.out);
      ApplyKeeps(c, before.state, l, m, es[|es| - 1]);
      Then(Initial, EmptyMessage, before.out, Apply(c, before.state, es[|es| - 1]).value.out);
    }
  }

  /** Everything emitted before the first error, which ends the run. */
  function Emitted(c: Context, es: seq<UpstreamEvent>): seq<Event> {
    if RunAll(c, es).Ok? then RunAll(c, es).value.out
    else if es == [] then []
    else Emitted(c, es[..|es| - 1])
  }

  /**
    Whatever upstream sends, what the reducer has emitted is a stream the lifecycle accepts so far, and it is a
    complete message exactly when the reducer is complete.
   */
  lemma {:induction false} EmittedIsAccepted(c: Context, es: seq<UpstreamEvent>)
    ensures AcceptedSoFar(Emitted(c, es))
    ensures RunAll(c, es).Ok? ==> (Accepted(Emitted(c, es)) <==> RunAll(c, es).value.state.completed)
  {
    if RunAll(c, es).Ok? {
      RunKeeps(c, es);
    } else if es != [] {
      EmittedIsAccepted(c, es[..|es| - 1]);
    }
  }

  /** In every reachable state the counters are exact and within their limits. */
  lemma ReachableIsBalanced(c: Context, es: seq<UpstreamEvent>)
    requires RunAll(c, es).Ok?
    ensures Balanced(RunAll(c, es).value.state)
  {
    RunKeeps(c, es);
  }
}
