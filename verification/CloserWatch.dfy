/**
  Which calls close a reasoning item, and whether each is the next item to open a block: a small automaton over the
  upstream events, and that it ends well exactly when, in the reducer's final state, every block sealed for a call is
  followed by that call's.
 */
module CloserWatch {
  import opened Wrappers
  import Sequences
  import opened MessageStream
  import opened Reducer
  import opened ReducerInvariant
  import opened ReducerBudgets
  import opened ReducerSteps
  import opened ReducerRuns
  import opened SealOrder
  import opened UpstreamAccount

  // ---------- The events ----------

  /**
    The calls registered so far; whether a reasoning item was completed and nothing closed it yet; the call whose
    registration closed one and that has to be the next item to open a block; and whether each such call was.
   */
  datatype Watch = Watch(known: set<string>, waiting: bool, owed: Option<string>, ok: bool)

  /** A call is registered once; while a reasoning item waits, that closes it. */
  function Registers(w: Watch, id: string): Watch {
    if id in w.known then w
    else Watch(w.known + {id}, false, if w.waiting then Some(id) else w.owed, w.ok)
  }

  /** The next item that opens a block, if a call is owed one. */
  function Opens(w: Watch, id: string): Watch {
    if w.owed.Some? then w.(owed := None, ok := w.ok && w.owed == Some(id)) else w
  }

  function Completes(w: Watch, item: Item, id: string): Watch {
    if item.kind == Some("function_call") then Opens(Registers(w, id), id)
    else if item.kind == Some("reasoning") then Opens(w.(waiting := false), id).(waiting := true)
    else if item.kind == Some("message") then Opens(w.(waiting := false), id)
    else w
  }

  function Sees(w: Watch, e: UpstreamEvent): Watch {
    match e
    case OutputTextDelta(Some(id), _) => Opens(w.(waiting := false), id)
    case ReasoningTextDelta(Some(id), _) => Opens(w.(waiting := false), id)
    case ArgumentsDelta(Some(id), _, _) => Opens(w, id)
    case OutputItemAdded(Some(item)) =>
      if item.kind == Some("function_call") && item.id.Some? then Registers(w, item.id.value) else w
    case OutputItemDone(Some(item)) =>
      if item.id.Some? then Completes(w, item, item.id.value) else w
    case _ => w
  }

  function Watched(es: seq<UpstreamEvent>): Watch {
    if es == [] then Watch({}, false, None, true) else Sees(Watched(es[..|es| - 1]), es[|es| - 1])
  }

  /** Every call whose registration closes a reasoning item is the next item to open a block. */
  predicate ClosersOpenNext(es: seq<UpstreamEvent>) {
    Watched(es).ok
  }

  // ---------- The state ----------

  /** The call of the block right after the i-th, if that is a tool block. */
  function NextCall(s: State, i: nat): Option<string> {
    if i + 1 < |s.blockOrder| && s.blockOrder[i + 1].ToolKey? && s.blockOrder[i + 1].id in s.tools then
      Some(s.tools[s.blockOrder[i + 1].id].callId)
    else None
  }

  /** The i-th block, if a call's registration closed it, is followed by that call's. */
  ghost predicate CloserFollows(s: State, i: nat)
    requires i < |s.blockOrder|
  {
    s.blockOrder[i].ReasoningKey? && s.blockOrder[i].id in s.seals && s.seals[s.blockOrder[i].id].toolId.Some? ==>
      NextCall(s, i) == s.seals[s.blockOrder[i].id].toolId
  }

  /** Each tool call whose registration closed a reasoning block is the next block opened after it. */
  ghost predicate ClosersFollow(s: State) {
    forall i: nat | i < |s.blockOrder| :: CloserFollows(s, i)
  }

  ghost predicate ClosersFollowSoFar(s: State) {
    forall i: nat | i + 1 < |s.blockOrder| :: CloserFollows(s, i)
  }

  /** The last block was closed by the registration of a call. */
  predicate TailBound(s: State) {
    && s.blockOrder != [] && s.blockOrder[|s.blockOrder| - 1].ReasoningKey?
    && s.blockOrder[|s.blockOrder| - 1].id in s.seals
    && s.seals[s.blockOrder[|s.blockOrder| - 1].id].toolId.Some?
  }

  predicate Owes(s: State, k: string) {
    && TailBound(s) && s.active.None?
    && k in s.tools && s.tools[k].index.None?
    && s.seals[s.blockOrder[|s.blockOrder| - 1].id].toolId == Some(s.tools[k].callId)
  }

  ghost predicate Watches(s: State, w: Watch) {
    && w.known == s.tools.Keys
    && (w.waiting <==> s.pending.Some?)
    && (if w.owed.Some? then Owes(s, w.owed.value) else !TailBound(s))
    && (w.ok <==> ClosersFollowSoFar(s))
  }

  /** One call id, one call. */
  ghost predicate Unique(s: State) {
    forall k, k' | k in s.tools && k' in s.tools && s.tools[k].callId == s.tools[k'].callId :: k == k'
  }

  lemma IdentifiedIsUnique(c: Context, s: State)
    requires Identified(c, s)
    ensures Unique(s)
  {
    forall k, k' | k in s.tools && k' in s.tools && s.tools[k].callId == s.tools[k'].callId ensures k == k' {
      assert ToolNamed(c, s, k) && ToolNamed(c, s, k');
    }
  }

  // ---------- Operations ----------

  predicate SameCalls(s: State, s': State) {
    s'.tools.Keys == s.tools.Keys && forall k | k in s.tools :: s'.tools[k].callId == s.tools[k].callId
  }

  predicate SameOrderSeals(s: State, s': State) {
    s'.blockOrder == s.blockOrder && s'.seals == s.seals && s'.pending == s.pending
  }

  lemma SameFollows(s: State, s': State)
    requires SameCalls(s, s') && s'.blockOrder == s.blockOrder && s'.seals == s.seals
    ensures ClosersFollowSoFar(s') <==> ClosersFollowSoFar(s)
  {
    forall i: nat | i < |s.blockOrder| ensures CloserFollows(s', i) == CloserFollows(s, i) {
      assert NextCall(s', i) == NextCall(s, i);
    }
  }

  /** Inside or at the end of an open block nothing changes for the watch; nor does it if no call and block does. */
  lemma SameWatches(s: State, s': State, w: Watch)
    requires Watches(s, w) && SameCalls(s, s') && SameOrderSeals(s, s')
    requires s.active.Some? || (s'.active.None? && s'.tools == s.tools)
    ensures Watches(s', w)
  {
    SameFollows(s, s');
  }

  lemma ActiveOwesNothing(s: State, w: Watch, id: string)
    requires Watches(s, w) && s.active.Some?
    ensures w.owed.None? && Opens(w, id) == w
  {
  }

  /** A block is opened. */
  lemma OpeningWatches(s: State, s': State, w: Watch, key: BlockKey)
    requires Watches(s, w) && Unique(s) && s.active.None?
    requires s'.blockOrder == s.blockOrder + [key] && s'.seals == s.seals && s'.pending == s.pending && SameCalls(s, s')
    requires key.ReasoningKey? ==> key.id !in s.seals
    requires if key.ToolKey? then key.id in s.tools else w.owed != Some(key.id)
    ensures Watches(s', Opens(w, key.id))
  {
    var n := |s.blockOrder|;
    forall i: nat | i + 1 < n ensures CloserFollows(s', i) == CloserFollows(s, i) {
      assert NextCall(s', i) == NextCall(s, i);
    }
    if n > 0 {
      assert s'.blockOrder[n - 1] == s.blockOrder[n - 1] && s'.blockOrder[n] == key;
      assert CloserFollows(s', n - 1) <==> (w.owed.Some? ==> w.owed == Some(key.id));
      FollowSplits(s', n);
      FollowSplits(s, n);
    }
  }

  lemma FollowSplits(s: State, n: nat)
    requires 0 < n <= |s.blockOrder| <= n + 1
    ensures
      ClosersFollowSoFar(s) <==>
        (forall i: nat | i + 1 < n :: CloserFollows(s, i)) && (|s.blockOrder| == n + 1 ==> CloserFollows(s, n - 1))
  {
    if (forall i: nat | i + 1 < n :: CloserFollows(s, i)) && (|s.blockOrder| == n + 1 ==> CloserFollows(s, n - 1)) {
      forall i: nat | i + 1 < |s.blockOrder| ensures CloserFollows(s, i) {
        if i + 1 == n {
          assert i == n - 1;
        }
      }
    }
  }

  /** The block that waits is sealed; it is the last one. */
  ghost predicate Seals(s: State, s': State, toolId: Option<string>) {
    && s'.tools == s.tools && s'.blockOrder == s.blockOrder && s'.pending.None?
    && if s.pending.None? then s' == s
       else
         && s'.active.None? && s.active == Some(ReasoningKey(s.pending.value))
         && s.pending.value in s'.seals && s'.seals == s.seals[s.pending.value := s'.seals[s.pending.value]]
         && s'.seals[s.pending.value].toolId == toolId
  }

  lemma ClosePendingSeals(c: Context, s: State, toolId: Option<string>)
    requires ClosePendingReasoning(c, s, toolId).Ok?
    ensures Seals(s, ClosePendingReasoning(c, s, toolId).value.state, toolId)
  {
    if s.pending.Some? {
      var signature := ClosePendingState(c, s, toolId);
      ClosePendingFrame(c, s, toolId);
    }
  }

  lemma SealedFollows(s: State, s': State, toolId: Option<string>)
    requires Ordered(s) && Seals(s, s', toolId)
    ensures ClosersFollowSoFar(s') <==> ClosersFollowSoFar(s)
  {
    if s.pending.Some? {
      forall i: nat | i + 1 < |s.blockOrder| ensures CloserFollows(s', i) == CloserFollows(s, i) {
        OnlyLast(s, s.pending.value, i);
        assert NextCall(s', i) == NextCall(s, i);
      }
    }
  }

  /** Closed by something else than a call, if anything waits. */
  lemma SealedWatches(s: State, s': State, w: Watch)
    requires Ordered(s) && Seals(s, s', None) && Watches(s, w)
    ensures Watches(s', w.(waiting := false))
  {
    SealedFollows(s, s', None);
  }

  lemma ClosingWatches(c: Context, s: State, w: Watch)
    requires Ordered(s) && ClosePendingReasoning(c, s, None).Ok? && Watches(s, w)
    ensures Watches(ClosePendingReasoning(c, s, None).value.state, w.(waiting := false))
  {
    ClosePendingSeals(c, s, None);
    SealedWatches(s, ClosePendingReasoning(c, s, None).value.state, w);
  }

  /** A block is opened, or goes on being open. */
  ghost predicate OpensBlock(s: State, s': State, key: BlockKey) {
    && s'.seals == s.seals && s'.pending == s.pending && SameCalls(s, s') && s'.active.Some?
    && (if s.active.Some? then s'.blockOrder == s.blockOrder
        else s'.blockOrder == s.blockOrder + [key] && (key.ReasoningKey? ==> key.id !in s.seals))
  }

  lemma OpensBlockWatches(s: State, s': State, w: Watch, key: BlockKey)
    requires Watches(s, w) && Unique(s) && OpensBlock(s, s', key)
    requires if key.ToolKey? then key.id in s.tools else w.owed != Some(key.id)
    ensures Watches(s', Opens(w, key.id))
  {
    if s.active.Some? {
      ActiveOwesNothing(s, w, key.id);
      SameWatches(s, s', w);
    } else {
      OpeningWatches(s, s', w, key);
    }
  }

  /** A call that is owed a block is no other kind of item. */
  lemma OwedIsCall(c: Context, s: State, w: Watch, id: string, kind: string)
    requires Identified(c, s) && Watches(s, w) && Claimed(s, id, kind) && kind != "function_call"
    ensures w.owed != Some(id)
  {
    if w.owed.Some? {
      assert ToolNamed(c, s, w.owed.value);
    }
  }

  lemma AppendTextSteps(c: Context, s: State, id: string, delta: string) returns (s1: State)
    requires AppendText(c, s, id, delta).Ok?
    ensures ClosePendingReasoning(c, s, None).Ok? && s1 == ClosePendingReasoning(c, s, None).value.state
    ensures OpensBlock(s1, AppendText(c, s, id, delta).value.state, TextKey(id))
    ensures s1.tools == s.tools && s1.pending.None?
  {
    s1 := ClosePendingReasoning(c, s, None).value.state;
    ClosePendingFrame(c, s, None);
    TextSteps(s1, id, delta);
  }

  lemma PushTextSame(s: State, id: string, delta: string)
    requires PushText(s, id, delta).Ok?
    ensures
      var s' := PushText(s, id, delta).value.state;
      s'.tools == s.tools && SameOrderSeals(s, s') && s'.active == s.active == Some(TextKey(id))
  {
  }

  lemma OpenTextSame(s: State, id: string)
    requires OpenText(s, id).Ok?
    ensures
      var s' := OpenText(s, id).value.state;
      && s.active.None? && s'.tools == s.tools && s'.seals == s.seals && s'.pending == s.pending
      && s'.blockOrder == s.blockOrder + [TextKey(id)]
  {
  }

  lemma TextSteps(s: State, id: string, delta: string)
    requires EnsureText(s, id).Ok? && PushText(EnsureText(s, id).value.state, id, delta).Ok?
    ensures OpensBlock(s, PushText(EnsureText(s, id).value.state, id, delta).value.state, TextKey(id))
  {
    var s1 := EnsureText(s, id).value.state;
    PushTextSame(s1, id, delta);
    if id !in s.texts {
      OpenTextSame(s, id);
    }
    OpenedOrOpen(s, s1, PushText(s1, id, delta).value.state, TextKey(id));
  }

  lemma OpenedOrOpen(s: State, s1: State, s': State, key: BlockKey)
    requires s1.tools == s.tools && s1.seals == s.seals && s1.pending == s.pending
    requires if s.active.Some? then s1.blockOrder == s.blockOrder else s1.blockOrder == s.blockOrder + [key]
    requires s'.tools == s1.tools && SameOrderSeals(s1, s') && s'.active.Some? && !key.ReasoningKey?
    ensures OpensBlock(s, s', key)
  {
  }

  lemma AppendTextWatches(c: Context, s: State, id: string, delta: string, w: Watch)
    requires Ordered(s) && Identified(c, s) && Claimed(s, id, "message") && Watches(s, w) && AppendText(c, s, id, delta).Ok?
    ensures Watches(AppendText(c, s, id, delta).value.state, Opens(w.(waiting := false), id))
  {
    var s1 := AppendTextSteps(c, s, id, delta);
    ClosingWatches(c, s, w);
    IdentifiedIsUnique(c, s);
    OwedIsCall(c, s, w, id, "message");
    OpensBlockWatches(s1, AppendText(c, s, id, delta).value.state, w.(waiting := false), TextKey(id));
  }

  lemma AppendReasoningSteps(c: Context, s: State, id: string, delta: string) returns (s1: State)
    requires Ciphered(c, s) && AppendReasoning(c, s, id, delta).Ok?
    ensures s.pending != Some(id)
    ensures ClosePendingReasoning(c, s, None).Ok? && s1 == ClosePendingReasoning(c, s, None).value.state
    ensures OpensBlock(s1, AppendReasoning(c, s, id, delta).value.state, ReasoningKey(id))
    ensures s1.tools == s.tools && s1.pending.None?
  {
    NoneWaits(c, s, id, delta);
    s1 := SealOther(c, s, id).value.state;
    ClosePendingFrame(c, s, None);
    ClosePendingCiphered(c, s, None);
    if id !in s1.reasoning {
      assert id !in s1.seals;
    }
    ReasoningSteps(s1, id, delta);
  }

  lemma ReasoningSteps(s: State, id: string, delta: string)
    requires EnsureReasoning(s, id).Ok? && PushReasoning(EnsureReasoning(s, id).value.state, id, delta).Ok?
    requires id !in s.reasoning ==> id !in s.seals
    ensures OpensBlock(s, PushReasoning(EnsureReasoning(s, id).value.state, id, delta).value.state, ReasoningKey(id))
  {
  }

  lemma AppendReasoningWatches(c: Context, s: State, id: string, delta: string, w: Watch)
    requires Ordered(s) && Ciphered(c, s) && Identified(c, s) && Claimed(s, id, "reasoning") && Watches(s, w)
    requires AppendReasoning(c, s, id, delta).Ok?
    ensures Watches(AppendReasoning(c, s, id, delta).value.state, Opens(w.(waiting := false), id))
  {
    var s1 := AppendReasoningSteps(c, s, id, delta);
    ClosingWatches(c, s, w);
    IdentifiedIsUnique(c, s);
    OwedIsCall(c, s, w, id, "reasoning");
    OpensBlockWatches(s1, AppendReasoning(c, s, id, delta).value.state, w.(waiting := false), ReasoningKey(id));
  }

  /** An item that waits takes no more text. */
  lemma NoneWaits(c: Context, s: State, id: string, delta: string)
    requires Ciphered(c, s) && AppendReasoning(c, s, id, delta).Ok?
    ensures s.pending != Some(id)
  {
    if s.pending.Some? {
      assert Stage(c, s, s.pending.value);
    }
  }

  lemma AddToolCalls(s: State, id: string, callId: string, name: string)
    requires id !in s.tools && AddTool(s, id, callId, name).Ok?
    ensures AddsCall(s, AddTool(s, id, callId, name).value, id, callId)
  {
  }

  /** A new call, with nothing waiting or after it closed what waited. */
  lemma AddedFollows(s: State, s': State, id: string)
    requires forall i: nat | i < |s.blockOrder| :: s.blockOrder[i].ToolKey? ==> s.blockOrder[i].id in s.tools
    requires s'.tools.Keys == s.tools.Keys + {id} && (forall k | k in s.tools :: s'.tools[k] == s.tools[k])
    requires s'.blockOrder == s.blockOrder && s'.seals == s.seals
    ensures ClosersFollowSoFar(s') <==> ClosersFollowSoFar(s)
  {
    forall i: nat | i < |s.blockOrder| ensures CloserFollows(s', i) == CloserFollows(s, i) {
      assert NextCall(s', i) == NextCall(s, i);
    }
  }

  lemma ToolBlocksKnown(s: State)
    requires Ordered(s)
    ensures forall i: nat | i < |s.blockOrder| :: s.blockOrder[i].ToolKey? ==> s.blockOrder[i].id in s.tools
  {
    forall i: nat | i < |s.blockOrder| && s.blockOrder[i].ToolKey? ensures s.blockOrder[i].id in s.tools {
      assert Backed(s, i);
    }
  }

  /** A call is added after what waited was closed for it. */
  ghost predicate AddsCall(s: State, s': State, id: string, callId: string) {
    && s'.tools.Keys == s.tools.Keys + {id} && s'.tools[id].callId == callId && s'.tools[id].index.None?
    && (forall k | k in s.tools :: s'.tools[k] == s.tools[k])
    && SameOrderSeals(s, s') && s'.active == s.active
  }

  lemma AddedWatches(s: State, s1: State, s': State, id: string, callId: string, w: Watch)
    requires Ordered(s) && Watches(s, w) && id !in s.tools && Seals(s, s1, Some(callId)) && AddsCall(s1, s', id, callId)
    ensures Watches(s', Registers(w, id))
  {
    ToolBlocksKnown(s);
    SealedFollows(s, s1, Some(callId));
    AddedFollows(s1, s', id);
    assert w.known + {id} == s'.tools.Keys;
    if s.pending.Some? {
      assert s.blockOrder[|s.blockOrder| - 1] == ReasoningKey(s.pending.value);
    }
  }

  lemma RegisterNewSteps(c: Context, s: State, item: Item) returns (s1: State, callId: string)
    requires RegisterTool(c, s, item).Ok? && item.id.Some? && item.id.value !in s.tools
    ensures Seals(s, s1, Some(callId)) && AddsCall(s1, RegisterTool(c, s, item).value.state, item.id.value, callId)
  {
    callId := if item.callId.Some? then item.callId.value else item.id.value;
    s1 := ClosePendingReasoning(c, s, Some(callId)).value.state;
    ClosePendingSeals(c, s, Some(callId));
    AddToolCalls(s1, item.id.value, callId, c.toolNames.AnthropicName(item.name));
  }

  lemma RegisterToolWatches(c: Context, s: State, item: Item, w: Watch)
    requires Ordered(s) && RegisterTool(c, s, item).Ok? && Watches(s, w)
    ensures item.id.Some? && Watches(RegisterTool(c, s, item).value.state, Registers(w, item.id.value))
  {
    if item.id.value !in s.tools {
      var s1, callId := RegisterNewSteps(c, s, item);
      AddedWatches(s, s1, RegisterTool(c, s, item).value.state, item.id.value, callId, w);
    }
  }

  lemma StartToolWatches(s: State, id: string, w: Watch)
    requires Unique(s) && id in s.tools && Watches(s, w) && StartRegisteredTool(s, id).Ok?
    ensures
      var s' := StartRegisteredTool(s, id).value.state;
      Watches(s', Opens(w, id)) && s'.active == Some(ToolKey(id)) && SameCalls(s, s')
  {
    if s.tools[id].index.Some? {
      ActiveOwesNothing(s, w, id);
    } else {
      OpeningWatches(s, StartRegisteredTool(s, id).value.state, w, ToolKey(id));
    }
  }

  lemma PushArgumentsCalls(s: State, id: string, delta: string)
    requires PushArguments(s, id, delta).Ok?
    ensures
      var s' := PushArguments(s, id, delta).value.state;
      SameCalls(s, s') && SameOrderSeals(s, s') && s'.active == s.active
  {
  }

  lemma AppendToolWatches(s: State, id: string, callId: Option<string>, delta: string, w: Watch)
    requires Unique(s) && Watches(s, w) && AppendTool(s, id, callId, delta).Ok?
    ensures
      var s' := AppendTool(s, id, callId, delta).value.state;
      Watches(s', Opens(w, id)) && s'.active == Some(ToolKey(id)) && SameCalls(s, s')
  {
    var s1 := StartRegisteredTool(s, id).value.state;
    StartToolWatches(s, id, w);
    PushArgumentsCalls(s1, id, delta);
    SameWatches(s1, PushArguments(s1, id, delta).value.state, Opens(w, id));
  }

  lemma FillAndCloseCalls(c: Context, s: State, id: string)
    requires FillAndClose(c, s, id).Ok?
    ensures
      var s' := FillAndClose(c, s, id).value.state;
      SameCalls(s, s') && SameOrderSeals(s, s') && s.active.Some?
  {
  }

  lemma FinishToolWatches(c: Context, s: State, l: Life, m: Message, item: Item, w: Watch)
    requires Underway(c, s, l, m) && item.id.Some? && Claimed(s, item.id.value, "function_call")
    requires Watches(s, w) && FinishTool(c, s, item).Ok?
    ensures Watches(FinishTool(c, s, item).value.state, Opens(Registers(w, item.id.value), item.id.value))
  {
    var id := item.id.value;
    var s1, s2, s3 := FinishToolSteps(c, s, item);
    RegisterToolKeeps(c, s, l, m, item);
    RegisterToolWatches(c, s, item, w);
    IdentifiedIsUnique(c, s1);
    StartToolWatches(s1, id, Registers(w, id));
    var w2 := Opens(Registers(w, id), id);
    if s3 != s2 {
      AppendToolWatches(s2, id, item.callId, item.arguments, w2);
      ActiveOwesNothing(s2, w2, id);
    }
    FillAndCloseCalls(c, s3, id);
    SameWatches(s3, FillAndClose(c, s3, id).value.state, w2);
  }

  lemma FinishTextCalls(s: State, id: string)
    requires FinishText(s, id).Ok?
    ensures
      var s' := FinishText(s, id).value.state;
      s'.tools == s.tools && SameOrderSeals(s, s') && s.active == Some(TextKey(id))
  {
  }

  lemma FinishMessageWatches(c: Context, s: State, item: Item, w: Watch)
    requires Ordered(s) && Ciphered(c, s) && Identified(c, s) && item.id.Some? && Claimed(s, item.id.value, "message")
    requires Watches(s, w) && FinishMessageItem(c, s, item).Ok?
    ensures Watches(FinishMessageItem(c, s, item).value.state, Opens(w.(waiting := false), item.id.value))
  {
    var id := item.id.value;
    var s1 := s;
    if id !in s.texts {
      AppendTextWatches(c, s, id, item.content, w);
      s1 := AppendText(c, s, id, item.content).value.state;
      FinishTextCalls(s1, id);
    } else {
      FinishTextCalls(s, id);
      ActiveOwesNothing(s, w, id);
      assert w.(waiting := false) == w;
    }
    SameWatches(s1, FinishText(s1, id).value.state, Opens(w.(waiting := false), id));
  }

  lemma HoldWatches(s: State, id: string, encrypted: string, w: Watch)
    requires HoldCiphertext(s, id, encrypted).Ok? && s.active.Some? && Watches(s, w)
    ensures Watches(HoldCiphertext(s, id, encrypted).value, w.(waiting := true))
  {
    HoldCiphertextOrder(s, id, encrypted);
    var s' := HoldCiphertext(s, id, encrypted).value;
    assert s'.tools == s.tools && s'.pending.Some? && s'.active == s.active;
    SameFollows(s, s');
  }

  lemma FinishReasoningWatches(c: Context, s: State, item: Item, w: Watch)
    requires Ordered(s) && Ciphered(c, s) && Identified(c, s) && item.id.Some? && Claimed(s, item.id.value, "reasoning")
    requires Watches(s, w) && FinishReasoning(c, s, item).Ok?
    ensures
      Watches(FinishReasoning(c, s, item).value.state, Opens(w.(waiting := false), item.id.value).(waiting := true))
  {
    var id := item.id.value;
    var s1 := SettleSummary(c, s, id, item.summary).value.state;
    if id !in s.reasoning || (s.reasoning[id].text == "" && item.summary != "") {
      AppendReasoningWatches(c, s, id, item.summary, w);
      PushedIsActive(c, s, id, item.summary);
    } else {
      UncompletedIsActive(c, s, id);
      ActiveOwesNothing(s, w, id);
      assert w.(waiting := false) == w;
    }
    HoldWatches(s1, id, item.encrypted.value, Opens(w.(waiting := false), id));
  }

  lemma PushedIsActive(c: Context, s: State, id: string, delta: string)
    requires AppendReasoning(c, s, id, delta).Ok?
    ensures AppendReasoning(c, s, id, delta).value.state.active.Some?
  {
    PushReasoningOrder(EnsureReasoning(SealOther(c, s, id).value.state, id).value.state, id, delta);
  }

  lemma UncompletedIsActive(c: Context, s: State, id: string)
    requires Ordered(s) && Ciphered(c, s) && id in s.reasoning && !s.reasoning[id].done && !s.reasoning[id].closed
    ensures s.active == Some(ReasoningKey(id)) && s.pending.None?
  {
    UnclosedIsActive(s, ReasoningKey(id));
    assert Stage(c, s, id);
  }

  // ---------- Runs ----------

  predicate SameForWatch(s: State, s': State) {
    s'.tools == s.tools && s'.active == s.active && SameOrderSeals(s, s')
  }

  lemma SameForWatchWatches(s: State, s': State, w: Watch)
    requires Watches(s, w) && SameForWatch(s, s')
    ensures Watches(s', w)
  {
    SameFollows(s, s');
  }

  lemma ClaimedWatches(c: Context, s: State, l: Life, m: Message, id: string, kind: string, w: Watch)
    requires Underway(c, s, l, m) && Watches(s, w) && ClaimOutputItem(s, id, kind).Ok?
    ensures var s' := ClaimOutputItem(s, id, kind).value; Underway(c, s', l, m) && Watches(s', w) && Claimed(s', id, kind)
  {
    ClaimKeeps(c, s, l, m, id, kind);
    SameForWatchWatches(s, ClaimOutputItem(s, id, kind).value, w);
  }

  lemma TextDeltaWatches(c: Context, s: State, l: Life, m: Message, itemId: Option<string>, delta: string, w: Watch)
    requires Underway(c, s, l, m) && Watches(s, w) && ApplyTextDelta(c, s, itemId, delta).Ok?
    ensures itemId.Some?
    ensures Watches(ApplyTextDelta(c, s, itemId, delta).value.state, Opens(w.(waiting := false), itemId.value))
  {
    ClaimedWatches(c, s, l, m, itemId.value, "message", w);
    AppendTextWatches(c, ClaimOutputItem(s, itemId.value, "message").value, itemId.value, delta, w);
  }

  lemma ReasoningDeltaWatches(c: Context, s: State, l: Life, m: Message, itemId: Option<string>, delta: string, w: Watch)
    requires Underway(c, s, l, m) && Watches(s, w) && ApplyReasoningDelta(c, s, itemId, delta).Ok?
    ensures itemId.Some?
    ensures Watches(ApplyReasoningDelta(c, s, itemId, delta).value.state, Opens(w.(waiting := false), itemId.value))
  {
    ClaimedWatches(c, s, l, m, itemId.value, "reasoning", w);
    AppendReasoningWatches(c, ClaimOutputItem(s, itemId.value, "reasoning").value, itemId.value, delta, w);
  }

  lemma ArgumentsDeltaWatches(
      c: Context, s: State, l: Life, m: Message, itemId: Option<string>, callId: Option<string>, delta: string, w: Watch)
    requires Underway(c, s, l, m) && Watches(s, w) && ApplyArgumentsDelta(c, s, itemId, callId, delta).Ok?
    ensures itemId.Some?
    ensures Watches(ApplyArgumentsDelta(c, s, itemId, callId, delta).value.state, Opens(w, itemId.value))
  {
    ClaimedWatches(c, s, l, m, itemId.value, "function_call", w);
    var claimed := ClaimOutputItem(s, itemId.value, "function_call").value;
    IdentifiedIsUnique(c, claimed);
    AppendToolWatches(claimed, itemId.value, callId, delta, w);
  }

  lemma DeltaWatches(c: Context, s: State, l: Life, m: Message, e: UpstreamEvent, w: Watch)
    requires Underway(c, s, l, m) && Watches(s, w) && Apply(c, s, e).Ok?
    requires e.OutputTextDelta? || e.ReasoningTextDelta? || e.ArgumentsDelta?
    ensures Watches(Apply(c, s, e).value.state, Sees(w, e))
  {
    match e
    case OutputTextDelta(itemId, delta) => TextDeltaWatches(c, s, l, m, itemId, delta, w);
    case ReasoningTextDelta(itemId, delta) => ReasoningDeltaWatches(c, s, l, m, itemId, delta, w);
    case ArgumentsDelta(itemId, callId, delta) => ArgumentsDeltaWatches(c, s, l, m, itemId, callId, delta, w);
  }

  lemma NotedWatches(c: Context, s: State, l: Life, m: Message, item: Item, w: Watch)
    requires Underway(c, s, l, m) && Watches(s, w) && NoteOutputItem(s, item).Ok?
    ensures item.kind.Some?
    ensures
      var s' := NoteOutputItem(s, item).value;
      && Underway(c, s', l, m) && Watches(s', w)
      && (item.id.Some? ==> Claimed(s', item.id.value, item.kind.value))
  {
    ClaimedWatches(c, s, l, m, if item.id.Some? then item.id.value else item.digestId, item.kind.value, w);
  }

  lemma ItemAddedIs(c: Context, s: State, item: Item)
    requires s.started && ApplyItemAdded(c, s, item).Ok?
    ensures NoteOutputItem(s, item).Ok?
    ensures
      var noted, s' := NoteOutputItem(s, item).value, ApplyItemAdded(c, s, item).value.state;
      if item.kind == Some("function_call") then
        RegisterTool(c, noted, item).Ok? && s' == RegisterTool(c, noted, item).value.state
      else s' == noted
  {
  }

  lemma ItemAddedWatches(c: Context, s: State, l: Life, m: Message, item: Item, w: Watch)
    requires Underway(c, s, l, m) && Watches(s, w) && ApplyItemAdded(c, s, item).Ok?
    ensures
      Watches(ApplyItemAdded(c, s, item).value.state,
              if item.kind == Some("function_call") && item.id.Some? then Registers(w, item.id.value) else w)
  {
    ItemAddedIs(c, s, item);
    NotedWatches(c, s, l, m, item, w);
    if item.kind == Some("function_call") {
      RegisterToolWatches(c, NoteOutputItem(s, item).value, item, w);
    }
  }

  lemma FinishWatches(c: Context, s: State, l: Life, m: Message, item: Item, w: Watch)
    requires Underway(c, s, l, m) && Watches(s, w) && Finish(c, s, item).Ok?
    requires item.kind.Some? && (item.id.Some? ==> Claimed(s, item.id.value, item.kind.value))
    ensures Watches(Finish(c, s, item).value.state, if item.id.Some? then Completes(w, item, item.id.value) else w)
  {
    if item.kind == Some("reasoning") {
      FinishReasoningWatches(c, s, item, w);
    } else if item.kind == Some("function_call") {
      FinishToolWatches(c, s, l, m, item, w);
    } else if item.kind == Some("message") {
      FinishMessageWatches(c, s, item, w);
    }
  }

  lemma ItemDoneWatches(c: Context, s: State, l: Life, m: Message, item: Item, w: Watch)
    requires Underway(c, s, l, m) && Watches(s, w) && ApplyItemDone(c, s, item).Ok?
    ensures
      Watches(ApplyItemDone(c, s, item).value.state, if item.id.Some? then Completes(w, item, item.id.value) else w)
  {
    ItemDoneIs(c, s, item);
    NotedWatches(c, s, l, m, item, w);
    FinishWatches(c, NoteOutputItem(s, item).value, l, m, item, w);
  }

  /** At the end no call is owed a block: it would still be open. */
  lemma NothingOwed(s: State, w: Watch)
    requires Watches(s, w) && Unstarted(s) && !AnyOpen(s)
    ensures w.owed.None? && !TailBound(s)
  {
  }

  lemma AllFollow(s: State, w: Watch)
    requires Watches(s, w) && !TailBound(s)
    ensures ClosersFollow(s) <==> w.ok
  {
    if w.ok {
      forall i: nat | i < |s.blockOrder| ensures CloserFollows(s, i) {
      }
    }
  }

  lemma TerminalWatched(c: Context, s: State, l: Life, m: Message, usage: Usage, maxTokens: bool, w: Watch)
    requires Underway(c, s, l, m) && Watches(s, w) && FinishTerminal(c, s, usage, maxTokens).Ok?
    ensures ClosersFollow(FinishTerminal(c, s, usage, maxTokens).value.state) <==> w.ok
  {
    var s1, w1 := ClosePendingReasoning(c, s, None).value.state, w.(waiting := false);
    ClosePendingKeeps(c, s, l, m, None);
    ClosingWatches(c, s, w);
    NothingOwed(s1, w1);
    var s2 := EnsureContent(c, s1).value.state;
    if s1.blockOrder == [] {
      OnlyBlockFollows(c, s1);
      AllFollow(s1, w1);
    } else {
      AllFollow(s1, w1);
    }
    SameEnd(s2, FinishTerminal(c, s, usage, maxTokens).value.state);
  }

  lemma SameEnd(s: State, s': State)
    requires s'.tools == s.tools && s'.blockOrder == s.blockOrder && s'.seals == s.seals
    ensures ClosersFollow(s') <==> ClosersFollow(s)
  {
    forall i: nat | i < |s.blockOrder| ensures CloserFollows(s', i) == CloserFollows(s, i) {
      assert NextCall(s', i) == NextCall(s, i);
    }
  }

  lemma OnlyBlockFollows(c: Context, s: State)
    requires s.blockOrder == [] && s.active.None? && EmptyOutput(c, s).Ok?
    ensures ClosersFollow(EmptyOutput(c, s).value.state)
  {
    EmptyOutputHolds(c, s);
  }

  /** While a response is under way the watch agrees with the state; at the end it says whether every closer follows. */
  ghost predicate WatchAgrees(es: seq<UpstreamEvent>, s: State) {
    if s.completed then ClosersFollow(s) <==> ClosersOpenNext(es) else Watches(s, Watched(es))
  }

  lemma WatchNext(es: seq<UpstreamEvent>, e: UpstreamEvent)
    ensures Watched(es + [e]) == Sees(Watched(es), e)
  {
    Sequences.Snoc(es, e);
  }

  lemma ApplyWatches(c: Context, es: seq<UpstreamEvent>, e: UpstreamEvent, s: State, l: Life, m: Message)
    requires RunInv(c, s, l, m) && WatchAgrees(es, s) && Apply(c, s, e).Ok?
    ensures WatchAgrees(es + [e], Apply(c, s, e).value.state)
  {
    WatchNext(es, e);
    if e.Completed? || e.Incomplete? {
      TerminalWatches(c, es, e, s, l, m);
    } else if e.OutputItemAdded? || e.OutputItemDone? {
      ItemWatches(c, es, e, s, l, m);
    } else if e.Created? || e.OtherEvent? {
      SameForWatchWatches(s, Apply(c, s, e).value.state, Watched(es));
    } else {
      DeltaWatches(c, s, l, m, e, Watched(es));
      DeltaUncompleted(c, s, l, m, e);
    }
  }

  lemma DeltaUncompleted(c: Context, s: State, l: Life, m: Message, e: UpstreamEvent)
    requires Underway(c, s, l, m) && Apply(c, s, e).Ok?
    requires e.OutputTextDelta? || e.ReasoningTextDelta? || e.ArgumentsDelta?
    ensures !Apply(c, s, e).value.state.completed
  {
    match e
    case OutputTextDelta(itemId, delta) => TextDeltaKeeps(c, s, l, m, itemId, delta);
    case ReasoningTextDelta(itemId, delta) => ReasoningDeltaKeeps(c, s, l, m, itemId, delta);
    case ArgumentsDelta(itemId, callId, delta) => ArgumentsDeltaKeeps(c, s, l, m, itemId, callId, delta);
  }

  lemma ItemWatches(c: Context, es: seq<UpstreamEvent>, e: UpstreamEvent, s: State, l: Life, m: Message)
    requires Underway(c, s, l, m) && Watches(s, Watched(es)) && Apply(c, s, e).Ok? && (e.OutputItemAdded? || e.OutputItemDone?)
    requires Watched(es + [e]) == Sees(Watched(es), e)
    ensures WatchAgrees(es + [e], Apply(c, s, e).value.state)
  {
    match e
    case OutputItemAdded(item) =>
      ItemAddedKeeps(c, s, l, m, item.value);
      ItemAddedWatches(c, s, l, m, item.value, Watched(es));
    case OutputItemDone(item) =>
      ItemDoneKeeps(c, s, l, m, item.value);
      ItemDoneWatches(c, s, l, m, item.value, Watched(es));
  }

  lemma TerminalWatches(c: Context, es: seq<UpstreamEvent>, e: UpstreamEvent, s: State, l: Life, m: Message)
    requires Underway(c, s, l, m) && Watches(s, Watched(es)) && Apply(c, s, e).Ok? && (e.Completed? || e.Incomplete?)
    requires Watched(es + [e]) == Sees(Watched(es), e)
    ensures WatchAgrees(es + [e], Apply(c, s, e).value.state)
  {
    TerminalIs(c, s, e);
    TerminalWatched(c, s, l, m, e.usage, e.Incomplete?, Watched(es));
  }

  lemma TerminalIs(c: Context, s: State, e: UpstreamEvent)
    requires Apply(c, s, e).Ok? && (e.Completed? || e.Incomplete?)
    ensures Apply(c, s, e) == FinishTerminal(c, s, e.usage, e.Incomplete?) && Apply(c, s, e).value.state.completed
  {
  }

  /** For every run: the condition on the events is the condition on the state reached. */
  lemma {:induction false} RunWatches(c: Context, es: seq<UpstreamEvent>)
    requires RunAll(c, es).Ok?
    ensures WatchAgrees(es, RunAll(c, es).value.state)
  {
    if es == [] {
      assert Watches(Fresh, Watched([]));
    } else {
      var before := es[..|es| - 1];
      RunWatches(c, before);
      RunKeeps(c, before);
      var e := RunAll(c, before).value;
      ApplyWatches(c, before, es[|es| - 1], e.state, Run(Initial, e.out).value, Assemble(EmptyMessage, e.out));
      Sequences.Unsnoc(es);
    }
  }
}
