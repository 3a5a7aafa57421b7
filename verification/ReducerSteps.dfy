/**
  Every operation of the reducer keeps the invariant, whatever the upstream sends.

  The operations are small: reserve bytes, claim an identifier, open a block, append to a block, settle what a
  completed item says against what was streamed, seal, close. Each lemma takes one of them, first for the layout
  of the tables and their order, then for the events emitted and the message they assemble to, and last for the
  bytes held. Two operations in a row are chained through the state between them. Whole events and whole runs
  are put together from these in the module about runs.
 */
module ReducerSteps {
  import opened Wrappers
  import opened Utf8
  import opened JsonValues
  import opened MessageStream
  import opened ThinkingSignature
  import opened ToolNames
  import opened Reducer
  import opened ReducerInvariant
  import opened ReducerBudgets

  // ---------- Three ways to change the block tables ----------

  ghost predicate OthersSame(s: State, s': State, key: BlockKey) {
    forall other :: other != key ==> Lookup(s', other) == Lookup(s, other)
  }

  /** `key` is opened as the next block. */
  ghost predicate Opens(s: State, s': State, key: BlockKey, body: Body) {
    && s.active.None? && s'.active == Some(key)
    && s'.blockOrder == s.blockOrder + [key]
    && s'.nextIndex == s.nextIndex + 1
    && Lookup(s, key).None?
    && Lookup(s', key) == Some(Slot(s.nextIndex, false, body))
    && OthersSame(s, s', key)
  }

  /** The body of the active block `key` changes. */
  ghost predicate Edits(s: State, s': State, key: BlockKey, body: Body) {
    && s.active == Some(key) == s'.active
    && s'.blockOrder == s.blockOrder
    && s'.nextIndex == s.nextIndex
    && Lookup(s, key).Some?
    && Lookup(s', key) == Some(Lookup(s, key).value.(body := body))
    && OthersSame(s, s', key)
  }

  /** The active block `key` is closed, perhaps with a last change to its body. */
  ghost predicate Closes(s: State, s': State, key: BlockKey, body: Body) {
    && s.active == Some(key) && s'.active.None?
    && s'.blockOrder == s.blockOrder
    && s'.nextIndex == s.nextIndex
    && Lookup(s, key).Some?
    && Lookup(s', key) == Some(Lookup(s, key).value.(closed := true, body := body))
    && OthersSame(s, s', key)
  }

  lemma OpensOrdered(s: State, s': State, key: BlockKey, body: Body)
    requires Ordered(s) && Opens(s, s', key, body)
    ensures Ordered(s')
  {
    forall i: nat | i < |s'.blockOrder| ensures Backed(s', i) {
      if i < |s.blockOrder| {
        assert Backed(s, i);
      }
    }
    forall k ensures Listed(s', k) {
      assert Listed(s, k);
    }
  }

  lemma EditsOrdered(s: State, s': State, key: BlockKey, body: Body)
    requires Ordered(s) && Edits(s, s', key, body)
    ensures Ordered(s')
  {
    forall i: nat | i < |s'.blockOrder| ensures Backed(s', i) {
      assert Backed(s, i);
    }
    forall k ensures Listed(s', k) {
      assert Listed(s, k);
    }
  }

  lemma ClosesOrdered(s: State, s': State, key: BlockKey, body: Body)
    requires Ordered(s) && Closes(s, s', key, body)
    ensures Ordered(s')
  {
    forall i: nat | i < |s'.blockOrder| ensures Backed(s', i) {
      assert Backed(s, i);
    }
    forall k ensures Listed(s', k) {
      assert Listed(s, k);
    }
    assert Backed(s, |s.blockOrder| - 1);
  }

  ghost predicate SameEnvelope(s: State, s': State) {
    && s'.messageId == s.messageId && s'.created == s.created && s'.started == s.started
    && s'.completed == s.completed && s'.failed == s.failed
    && s'.inputTokens == s.inputTokens && s'.outputTokens == s.outputTokens
  }

  lemma OpensMirrors(c: Context, s: State, s': State, l: Life, m: Message, key: BlockKey, body: Body, head: Head)
    requires Ordered(s) && Mirrors(c, s, l, m) && s.started && !s.completed
    requires SameEnvelope(s, s') && Opens(s, s', key, body)
    requires Shows(Block(head, []), false, body)
    ensures
      var e := BlockStart(s.nextIndex, head);
      Advance(l, e).Some? && Mirrors(c, s', Advance(l, e).value, Observe(m, e))
  {
    var m' := Observe(m, BlockStart(s.nextIndex, head));
    forall i: nat | i < |m'.blocks| ensures ShowsAt(m', s', i) {
      if i < |s.blockOrder| {
        assert Backed(s, i) && ShowsAt(m, s, i);
      }
    }
  }

  /** The one block an edit or a close changes is the last; the others show what they showed. */
  lemma LastChanged(c: Context, s: State, s': State, l: Life, m: Message, key: BlockKey, b: Block)
    requires Ordered(s) && Mirrors(c, s, l, m)
    requires s.active == Some(key) && s'.blockOrder == s.blockOrder && OthersSame(s, s', key)
    requires Lookup(s', key).Some? && Shows(b, Lookup(s', key).value.closed, Lookup(s', key).value.body)
    ensures m.blocks != []
    ensures
      var m' := m.(blocks := m.blocks[|m.blocks| - 1 := b]);
      && |m'.blocks| == |s'.blockOrder|
      && forall i: nat | i < |m'.blocks| :: ShowsAt(m', s', i)
  {
    var m' := m.(blocks := m.blocks[|m.blocks| - 1 := b]);
    forall i: nat | i < |m'.blocks| ensures ShowsAt(m', s', i) {
      assert ShowsAt(m, s, i) && Backed(s, i);
      if i < |m.blocks| - 1 {
        assert Backed(s, |s.blockOrder| - 1);
        assert s.blockOrder[i] != key;
      }
    }
  }

  lemma Folds(ds: seq<Delta>, d: Delta)
    ensures TextOf(ds + [d]) == TextOf(ds) + (match d case TextDelta(t) => t case _ => "")
    ensures ThinkingOf(ds + [d]) == ThinkingOf(ds) + (match d case ThinkingDelta(t) => t case _ => "")
    ensures SignatureOf(ds + [d]) == SignatureOf(ds) + (match d case SignatureDelta(t) => t case _ => "")
    ensures JsonOf(ds + [d]) == JsonOf(ds) + (match d case InputJsonDelta(t) => t case _ => "")
  {
    assert (ds + [d])[..|ds|] == ds;
  }

  /** A body after one more delta. */
  function After(body: Body, d: Delta): Body {
    match (body, d)
    case (TextBody(text), TextDelta(t)) => TextBody(text + t)
    case (ReasoningBody(text, signature), ThinkingDelta(t)) => ReasoningBody(text + t, signature)
    case (ReasoningBody(text, None), SignatureDelta(t)) => ReasoningBody(text, Some(t))
    case (ToolBody(callId, name, arguments), InputJsonDelta(t)) => ToolBody(callId, name, arguments + t)
    case _ => body
  }

  predicate Suits(body: Body, d: Delta) {
    match (body, d)
    case (TextBody(_), TextDelta(_)) => true
    case (ReasoningBody(_, _), ThinkingDelta(_)) => true
    case (ReasoningBody(_, None), SignatureDelta(_)) => true
    case (ToolBody(_, _, _), InputJsonDelta(_)) => true
    case _ => false
  }

  lemma ShowsAfter(b: Block, body: Body, d: Delta)
    requires Shows(b, false, body) && Suits(body, d)
    ensures Shows(b.(deltas := b.deltas + [d]), false, After(body, d))
  {
    Folds(b.deltas, d);
  }

  lemma ActiveIsLast(c: Context, s: State, l: Life, m: Message, key: BlockKey)
    requires Ordered(s) && Mirrors(c, s, l, m) && s.active == Some(key)
    ensures m.blocks != [] && Lookup(s, key).Some? && !Lookup(s, key).value.closed
    ensures Lookup(s, key).value.index == |s.blockOrder| - 1
    ensures Shows(m.blocks[|m.blocks| - 1], false, Lookup(s, key).value.body)
  {
    assert Backed(s, |s.blockOrder| - 1) && ShowsAt(m, s, |m.blocks| - 1);
  }

  lemma DeltaAccepted(c: Context, s: State, l: Life, m: Message, key: BlockKey, d: Delta)
    requires Ordered(s) && Mirrors(c, s, l, m) && s.started && !s.completed && s.active == Some(key)
    ensures m.blocks != [] && Lookup(s, key).Some?
    ensures
      var e, last := BlockDelta(Lookup(s, key).value.index, d), |m.blocks| - 1;
      && Advance(l, e) == Some(l)
      && Observe(m, e) == m.(blocks := m.blocks[last := m.blocks[last].(deltas := m.blocks[last].deltas + [d])])
  {
    ActiveIsLast(c, s, l, m, key);
  }

  lemma EditsMirrors(c: Context, s: State, s': State, l: Life, m: Message, key: BlockKey, d: Delta)
    requires Ordered(s) && Mirrors(c, s, l, m) && s.started && !s.completed && SameEnvelope(s, s')
    requires s.active == Some(key) && Lookup(s, key).Some?
    requires Edits(s, s', key, After(Lookup(s, key).value.body, d))
    requires Suits(Lookup(s, key).value.body, d)
    ensures
      var e := BlockDelta(Lookup(s, key).value.index, d);
      Advance(l, e).Some? && Mirrors(c, s', Advance(l, e).value, Observe(m, e))
  {
    ActiveIsLast(c, s, l, m, key);
    var b := m.blocks[|m.blocks| - 1];
    ShowsAfter(b, Lookup(s, key).value.body, d);
    UnchangedLife(c, s, s', l, m, key, b.(deltas := b.deltas + [d]));
    DeltaAccepted(c, s, l, m, key, d);
  }

  lemma UnchangedLife(c: Context, s: State, s': State, l: Life, m: Message, key: BlockKey, b: Block)
    requires Ordered(s) && Mirrors(c, s, l, m) && s.started && !s.completed && SameEnvelope(s, s')
    requires s.active == Some(key) == s'.active && s'.blockOrder == s.blockOrder && OthersSame(s, s', key)
    requires Lookup(s', key).Some? && Shows(b, Lookup(s', key).value.closed, Lookup(s', key).value.body)
    ensures m.blocks != [] && Mirrors(c, s', l, m.(blocks := m.blocks[|m.blocks| - 1 := b]))
  {
    LastChanged(c, s, s', l, m, key, b);
  }

  lemma ClosesMirrors(c: Context, s: State, s': State, l: Life, m: Message, key: BlockKey, body: Body)
    requires Ordered(s) && Mirrors(c, s, l, m) && s.started && !s.completed && SameEnvelope(s, s')
    requires Closes(s, s', key, body)
    requires m.blocks != [] && Shows(m.blocks[|m.blocks| - 1], true, body)
    requires |s.blockOrder| <= MAX_OUTPUT_ITEMS
    ensures
      var e := BlockStop(Lookup(s, key).value.index);
      Advance(l, e).Some? && Mirrors(c, s', Advance(l, e).value, Observe(m, e))
  {
    ActiveIsLast(c, s, l, m, key);
    var b := m.blocks[|m.blocks| - 1];
    LastChanged(c, s, s', l, m, key, b);
    assert m.(blocks := m.blocks[|m.blocks| - 1 := b]) == m;
  }

  // ---------- Frames for what an operation leaves alone ----------

  lemma CipheredFrame(c: Context, s: State, s': State)
    requires Ciphered(c, s)
    requires s'.reasoning == s.reasoning && s'.seals == s.seals && s'.pending == s.pending
    requires s.pending.Some? ==> s'.active == s.active
    ensures Ciphered(c, s')
  {
    forall k | k in s'.reasoning ensures Stage(c, s', k) {
      assert Stage(c, s, k);
    }
  }

  lemma IdentifiedFrame(c: Context, s: State, s': State)
    requires Identified(c, s)
    requires s'.outputItems == s.outputItems && s'.callIds == s.callIds && s'.tools == s.tools
    requires forall k | k in s'.texts :: k in s.texts || Claimed(s, k, "message")
    requires forall k | k in s'.reasoning :: k in s.reasoning || Claimed(s, k, "reasoning")
    ensures Identified(c, s')
  {
    forall k | k in s'.tools ensures ToolNamed(c, s', k) {
      assert ToolNamed(c, s, k);
    }
  }

  ghost predicate SameLayout(s: State, s': State) {
    && SameEnvelope(s, s')
    && s'.active == s.active && s'.blockOrder == s.blockOrder && s'.nextIndex == s.nextIndex
    && forall key :: Lookup(s', key) == Lookup(s, key)
  }

  lemma LayoutFrame(c: Context, s: State, s': State, l: Life, m: Message)
    requires Ordered(s) && Mirrors(c, s, l, m) && SameLayout(s, s')
    ensures Ordered(s') && Mirrors(c, s', l, m)
  {
    forall i: nat | i < |s'.blockOrder| ensures Backed(s', i) {
      assert Backed(s, i);
    }
    forall k ensures Listed(s', k) {
      assert Listed(s, k);
    }
    forall i: nat | i < |m.blocks| ensures ShowsAt(m, s', i) {
      assert ShowsAt(m, s, i);
    }
  }

  /** An operation between the first and the last event: its events are accepted next and the invariant holds after. */
  ghost predicate Continues(c: Context, s: State, e: Emission, l: Life, m: Message) {
    && Keeps(c, e, l, m)
    && e.state.outputItems == s.outputItems
    && SameEnvelope(s, e.state)
  }

  ghost predicate Underway(c: Context, s: State, l: Life, m: Message) {
    Inv(c, s, l, m) && s.started && !s.completed
  }

  lemma Chain(c: Context, s: State, e: Emission, f: Emission, l: Life, m: Message)
    requires Continues(c, s, e, l, m)
    requires Continues(c, e.state, f, Run(l, e.out).value, Assemble(m, e.out))
    ensures Continues(c, s, Emission(f.state, e.out + f.out), l, m)
  {
    Then(l, m, e.out, f.out);
  }

  lemma Silent(c: Context, s: State, l: Life, m: Message)
    requires Inv(c, s, l, m)
    ensures Continues(c, s, Emission(s, []), l, m)
  {
  }

  /** What every operation below shows of itself besides the change it makes to the block tables. */
  ghost predicate Sound(c: Context, s: State, s': State) {
    && Unstarted(s') && Ciphered(c, s') && Identified(c, s') && Balanced(s')
    && s'.outputItems == s.outputItems && SameEnvelope(s, s')
  }

  lemma OpenContinues(c: Context, s: State, e: Emission, l: Life, m: Message, key: BlockKey, body: Body, head: Head)
    requires Underway(c, s, l, m) && Sound(c, s, e.state)
    requires Opens(s, e.state, key, body) && Shows(Block(head, []), false, body)
    requires e.out == [BlockStart(s.nextIndex, head)]
    ensures Continues(c, s, e, l, m)
  {
    One(l, m, e.out[0]);
    OpensOrdered(s, e.state, key, body);
    OpensMirrors(c, s, e.state, l, m, key, body, head);
  }

  lemma EditContinues(c: Context, s: State, e: Emission, l: Life, m: Message, key: BlockKey, d: Delta)
    requires Underway(c, s, l, m) && Sound(c, s, e.state)
    requires Lookup(s, key).Some? && Suits(Lookup(s, key).value.body, d)
    requires Edits(s, e.state, key, After(Lookup(s, key).value.body, d))
    requires
      || e.out == [BlockDelta(Lookup(s, key).value.index, d)]
      || (e.out == [] && After(Lookup(s, key).value.body, d) == Lookup(s, key).value.body)
    ensures Continues(c, s, e, l, m)
  {
    EditsOrdered(s, e.state, key, After(Lookup(s, key).value.body, d));
    if e.out == [] {
      Unedited(c, s, e.state, l, m, key);
    } else {
      One(l, m, e.out[0]);
      EditsMirrors(c, s, e.state, l, m, key, d);
    }
  }

  lemma CloseContinues(c: Context, s: State, e: Emission, l: Life, m: Message, key: BlockKey, body: Body)
    requires Underway(c, s, l, m) && Sound(c, s, e.state)
    requires Closes(s, e.state, key, body)
    requires m.blocks != [] && Shows(m.blocks[|m.blocks| - 1], true, body)
    requires e.out == [BlockStop(Lookup(s, key).value.index)]
    ensures Continues(c, s, e, l, m)
  {
    One(l, m, e.out[0]);
    ClosesOrdered(s, e.state, key, body);
    BlocksBounded(c, s);
    ClosesMirrors(c, s, e.state, l, m, key, body);
  }

  lemma QuietContinues(c: Context, s: State, s': State, l: Life, m: Message)
    requires Underway(c, s, l, m) && Sound(c, s, s') && SameLayout(s, s')
    ensures Continues(c, s, Emission(s', []), l, m)
  {
    LayoutFrame(c, s, s', l, m);
  }

  lemma Unedited(c: Context, s: State, s': State, l: Life, m: Message, key: BlockKey)
    requires Ordered(s) && Mirrors(c, s, l, m) && s.started && !s.completed && SameEnvelope(s, s')
    requires s.active == Some(key) == s'.active && s'.blockOrder == s.blockOrder && OthersSame(s, s', key)
    requires Lookup(s', key) == Lookup(s, key)
    ensures Mirrors(c, s', l, m)
  {
    ActiveIsLast(c, s, l, m, key);
    var b := m.blocks[|m.blocks| - 1];
    UnchangedLife(c, s, s', l, m, key, b);
    assert m.(blocks := m.blocks[|m.blocks| - 1 := b]) == m;
  }

  // ---------- Text ----------

  lemma OpenTextOpens(s: State, id: string)
    requires id !in s.texts && OpenText(s, id).Ok?
    ensures Opens(s, OpenText(s, id).value.state, TextKey(id), TextBody(""))
    ensures SameEnvelope(s, OpenText(s, id).value.state)
  {
  }

  lemma OpenTextKeeps(c: Context, s: State, l: Life, m: Message, id: string)
    requires Underway(c, s, l, m)
    requires id !in s.texts && Claimed(s, id, "message")
    requires OpenText(s, id).Ok?
    ensures Continues(c, s, OpenText(s, id).value, l, m)
  {
    var e := OpenText(s, id).value;
    OpenTextOpens(s, id);
    CipheredFrame(c, s, e.state);
    IdentifiedFrame(c, s, e.state);
    OpenTextBalanced(s, id);
    OpenContinues(c, s, e, l, m, TextKey(id), TextBody(""), TextHead(""));
  }

  lemma PushTextEdits(s: State, id: string, delta: string)
    requires PushText(s, id, delta).Ok?
    ensures id in s.texts
    ensures Edits(s, PushText(s, id, delta).value.state, TextKey(id), TextBody(s.texts[id].text + delta))
    ensures SameEnvelope(s, PushText(s, id, delta).value.state)
  {
  }

  lemma PushTextKeeps(c: Context, s: State, l: Life, m: Message, id: string, delta: string)
    requires Underway(c, s, l, m)
    requires PushText(s, id, delta).Ok?
    ensures Continues(c, s, PushText(s, id, delta).value, l, m)
  {
    var e := PushText(s, id, delta).value;
    PushTextEdits(s, id, delta);
    CipheredFrame(c, s, e.state);
    IdentifiedFrame(c, s, e.state);
    assert delta == "" ==> s.texts[id].text + delta == s.texts[id].text;
    PushTextBalanced(s, id, delta);
    EditContinues(c, s, e, l, m, TextKey(id), TextDelta(delta));
  }

  lemma FinishTextKeeps(c: Context, s: State, l: Life, m: Message, id: string)
    requires Underway(c, s, l, m)
    requires FinishText(s, id).Ok?
    ensures Continues(c, s, FinishText(s, id).value, l, m)
  {
    var e := FinishText(s, id).value;
    assert Closes(s, e.state, TextKey(id), TextBody(s.texts[id].text));
    CipheredFrame(c, s, e.state);
    IdentifiedFrame(c, s, e.state);
    ActiveIsLast(c, s, l, m, TextKey(id));
    FinishTextBalanced(s, id);
    CloseContinues(c, s, e, l, m, TextKey(id), TextBody(s.texts[id].text));
  }

  lemma EnsureTextKeeps(c: Context, s: State, l: Life, m: Message, id: string)
    requires Underway(c, s, l, m) && Claimed(s, id, "message") && EnsureText(s, id).Ok?
    ensures Continues(c, s, EnsureText(s, id).value, l, m)
  {
    if id in s.texts {
      Silent(c, s, l, m);
    } else {
      OpenTextKeeps(c, s, l, m, id);
    }
  }

  lemma AppendTextKeeps(c: Context, s: State, l: Life, m: Message, id: string, delta: string)
    requires Underway(c, s, l, m) && Claimed(s, id, "message")
    requires AppendText(c, s, id, delta).Ok?
    ensures Continues(c, s, AppendText(c, s, id, delta).value, l, m)
  {
    var e := ClosePendingReasoning(c, s, None).value;
    ClosePendingKeeps(c, s, l, m, None);
    var f := EnsureText(e.state, id).value;
    EnsureTextKeeps(c, e.state, Run(l, e.out).value, Assemble(m, e.out), id);
    Chain(c, s, e, f, l, m);
    var out := e.out + f.out;
    PushTextKeeps(c, f.state, Run(l, out).value, Assemble(m, out), id, delta);
    Chain(c, s, Emission(f.state, out), PushText(f.state, id, delta).value, l, m);
  }

  lemma FinishMessageItemKeeps(c: Context, s: State, l: Life, m: Message, item: Item)
    requires Underway(c, s, l, m) && item.id.Some? && Claimed(s, item.id.value, "message")
    requires FinishMessageItem(c, s, item).Ok?
    ensures Continues(c, s, FinishMessageItem(c, s, item).value, l, m)
  {
    var id := item.id.value;
    var e := if id !in s.texts then AppendText(c, s, id, item.content).value else Emission(s, []);
    if id !in s.texts {
      AppendTextKeeps(c, s, l, m, id, item.content);
    } else {
      Silent(c, s, l, m);
    }
    FinishTextKeeps(c, e.state, Run(l, e.out).value, Assemble(m, e.out), id);
    Chain(c, s, e, FinishText(e.state, id).value, l, m);
  }

  // ---------- Reasoning ----------

  lemma OpenReasoningKeeps(c: Context, s: State, l: Life, m: Message, id: string)
    requires Underway(c, s, l, m)
    requires id !in s.reasoning && Claimed(s, id, "reasoning")
    requires OpenReasoning(s, id).Ok?
    ensures Continues(c, s, OpenReasoning(s, id).value, l, m)
  {
    var e := OpenReasoning(s, id).value;
    OpenReasoningOpens(s, id);
    OpenReasoningCiphered(c, s, id);
    IdentifiedFrame(c, s, e.state);
    OpenReasoningBalanced(s, id);
    OpenContinues(c, s, e, l, m, ReasoningKey(id), ReasoningBody("", None), ThinkingHead("", ""));
  }

  lemma OpenReasoningOpens(s: State, id: string)
    requires id !in s.reasoning && OpenReasoning(s, id).Ok?
    ensures Opens(s, OpenReasoning(s, id).value.state, ReasoningKey(id), ReasoningBody("", None))
    ensures SameEnvelope(s, OpenReasoning(s, id).value.state)
  {
  }

  lemma OpenReasoningCiphered(c: Context, s: State, id: string)
    requires Ciphered(c, s) && id !in s.reasoning && OpenReasoning(s, id).Ok?
    ensures Ciphered(c, OpenReasoning(s, id).value.state)
  {
    var s' := OpenReasoning(s, id).value.state;
    forall k | k in s'.reasoning ensures Stage(c, s', k) {
      if k in s.reasoning {
        assert Stage(c, s, k);
      }
    }
  }

  lemma PushReasoningEdits(s: State, id: string, delta: string)
    requires PushReasoning(s, id, delta).Ok?
    ensures id in s.reasoning
    ensures
      var r := s.reasoning[id];
      Edits(s, PushReasoning(s, id, delta).value.state, ReasoningKey(id), ReasoningBody(r.text + delta, r.signature))
    ensures SameEnvelope(s, PushReasoning(s, id, delta).value.state)
  {
  }

  lemma PushReasoningCiphered(c: Context, s: State, id: string, delta: string)
    requires Ciphered(c, s) && PushReasoning(s, id, delta).Ok?
    ensures Ciphered(c, PushReasoning(s, id, delta).value.state)
  {
    var s' := PushReasoning(s, id, delta).value.state;
    forall k | k in s'.reasoning ensures Stage(c, s', k) {
      assert Stage(c, s, k);
    }
  }

  lemma PushReasoningKeeps(c: Context, s: State, l: Life, m: Message, id: string, delta: string)
    requires Underway(c, s, l, m)
    requires PushReasoning(s, id, delta).Ok?
    ensures Continues(c, s, PushReasoning(s, id, delta).value, l, m)
  {
    var e := PushReasoning(s, id, delta).value;
    PushReasoningEdits(s, id, delta);
    PushReasoningCiphered(c, s, id, delta);
    IdentifiedFrame(c, s, e.state);
    assert delta == "" ==> s.reasoning[id].text + delta == s.reasoning[id].text;
    PushReasoningBalanced(s, id, delta);
    EditContinues(c, s, e, l, m, ReasoningKey(id), ThinkingDelta(delta));
  }

  lemma ClosePendingCiphered(c: Context, s: State, toolId: Option<string>)
    requires Ciphered(c, s) && ClosePendingReasoning(c, s, toolId).Ok?
    ensures Ciphered(c, ClosePendingReasoning(c, s, toolId).value.state)
  {
    var s' := ClosePendingReasoning(c, s, toolId).value.state;
    forall k | k in s'.reasoning ensures Stage(c, s', k) {
      assert Stage(c, s, k);
    }
  }

  lemma ClosePendingKeeps(c: Context, s: State, l: Life, m: Message, toolId: Option<string>)
    requires Underway(c, s, l, m)
    requires ClosePendingReasoning(c, s, toolId).Ok?
    ensures Continues(c, s, ClosePendingReasoning(c, s, toolId).value, l, m)
  {
    if s.pending.None? {
      Silent(c, s, l, m);
    } else {
      BlocksBounded(c, s);
      ClosePendingStream(c, s, l, m, toolId);
      ClosePendingCiphered(c, s, toolId);
      ClosePendingBalanced(c, s, toolId);
      IdentifiedFrame(c, s, ClosePendingReasoning(c, s, toolId).value.state);
    }
  }

  /** Sealing is a last delta to the block followed by its close. */
  lemma ClosePendingStream(c: Context, s: State, l: Life, m: Message, toolId: Option<string>)
    requires Ordered(s) && Ciphered(c, s) && Mirrors(c, s, l, m) && s.started && !s.completed
    requires |s.blockOrder| <= MAX_OUTPUT_ITEMS
    requires s.pending.Some? && ClosePendingReasoning(c, s, toolId).Ok?
    ensures
      var e := ClosePendingReasoning(c, s, toolId).value;
      && Ordered(e.state) && SameEnvelope(s, e.state)
      && Run(l, e.out).Some? && Mirrors(c, e.state, Run(l, e.out).value, Assemble(m, e.out))
  {
    var e := ClosePendingReasoning(c, s, toolId).value;
    var id := s.pending.value;
    var key, r := ReasoningKey(id), s.reasoning[id];
    var signature := e.state.reasoning[id].signature.value;
    var signed := s.(reasoning := s.reasoning[id := r.(signature := Some(signature))]);
    var body := ReasoningBody(r.text, Some(signature));
    assert Stage(c, s, id);
    assert Edits(s, signed, key, body);
    EditsOrdered(s, signed, key, body);
    EditsMirrors(c, s, signed, l, m, key, SignatureDelta(signature));
    DeltaAccepted(c, s, l, m, key, SignatureDelta(signature));
    SignedCloses(c, s, toolId, signed);
    ClosesOrdered(signed, e.state, key, body);
    var m1 := Observe(m, e.out[0]);
    ActiveIsLast(c, signed, l, m1, key);
    ClosesMirrors(c, signed, e.state, l, m1, key, body);
    Two(l, m, e.out[0], e.out[1]);
  }

  lemma SignedCloses(c: Context, s: State, toolId: Option<string>, signed: State)
    requires s.pending.Some? && ClosePendingReasoning(c, s, toolId).Ok?
    requires s.pending.value in s.reasoning
    requires
      var id, s' := s.pending.value, ClosePendingReasoning(c, s, toolId).value.state;
      && id in s'.reasoning
      && signed == s.(reasoning := s.reasoning[id := s.reasoning[id].(signature := s'.reasoning[id].signature)])
    ensures
      var id, s' := s.pending.value, ClosePendingReasoning(c, s, toolId).value.state;
      && SameEnvelope(signed, s')
      && Closes(signed, s', ReasoningKey(id), ReasoningBody(s.reasoning[id].text, s'.reasoning[id].signature))
  {
  }

  lemma EnsureReasoningKeeps(c: Context, s: State, l: Life, m: Message, id: string)
    requires Underway(c, s, l, m) && Claimed(s, id, "reasoning") && EnsureReasoning(s, id).Ok?
    ensures Continues(c, s, EnsureReasoning(s, id).value, l, m)
  {
    if id in s.reasoning {
      Silent(c, s, l, m);
    } else {
      OpenReasoningKeeps(c, s, l, m, id);
    }
  }

  lemma SealOtherKeeps(c: Context, s: State, l: Life, m: Message, id: string)
    requires Underway(c, s, l, m) && SealOther(c, s, id).Ok?
    ensures Continues(c, s, SealOther(c, s, id).value, l, m)
  {
    if s.pending.Some? && s.pending.value != id {
      ClosePendingKeeps(c, s, l, m, None);
    } else {
      Silent(c, s, l, m);
    }
  }

  lemma AppendReasoningKeeps(c: Context, s: State, l: Life, m: Message, id: string, delta: string)
    requires Underway(c, s, l, m) && Claimed(s, id, "reasoning")
    requires AppendReasoning(c, s, id, delta).Ok?
    ensures Continues(c, s, AppendReasoning(c, s, id, delta).value, l, m)
  {
    var e := SealOther(c, s, id).value;
    SealOtherKeeps(c, s, l, m, id);
    var f := EnsureReasoning(e.state, id).value;
    EnsureReasoningKeeps(c, e.state, Run(l, e.out).value, Assemble(m, e.out), id);
    Chain(c, s, e, f, l, m);
    var out := e.out + f.out;
    PushReasoningKeeps(c, f.state, Run(l, out).value, Assemble(m, out), id, delta);
    Chain(c, s, Emission(f.state, out), PushReasoning(f.state, id, delta).value, l, m);
  }

  /** Nothing holds ciphertext while a reasoning block that is not done is active: an unclosed block is the active one. */
  lemma UnclosedIsActive(s: State, key: BlockKey)
    requires Ordered(s) && Lookup(s, key).Some? && !Lookup(s, key).value.closed
    ensures s.active == Some(key)
  {
    assert Listed(s, key) && Backed(s, Lookup(s, key).value.index);
  }

  lemma HoldCiphertextKeeps(c: Context, s: State, l: Life, m: Message, id: string, encrypted: string)
    requires Underway(c, s, l, m)
    requires HoldCiphertext(s, id, encrypted).Ok?
    ensures Continues(c, s, Emission(HoldCiphertext(s, id, encrypted).value, []), l, m)
  {
    var s' := HoldCiphertext(s, id, encrypted).value;
    UnclosedIsActive(s, ReasoningKey(id));
    HoldCiphertextCiphered(c, s, id, encrypted);
    IdentifiedFrame(c, s, s');
    assert Stage(c, s, id);
    HoldCiphertextBalanced(s, id, encrypted);
    QuietContinues(c, s, s', l, m);
  }

  lemma HoldCiphertextCiphered(c: Context, s: State, id: string, encrypted: string)
    requires Ciphered(c, s) && HoldCiphertext(s, id, encrypted).Ok? && s.active == Some(ReasoningKey(id))
    ensures Ciphered(c, HoldCiphertext(s, id, encrypted).value)
  {
    var s' := HoldCiphertext(s, id, encrypted).value;
    assert Stage(c, s, id);
    forall k | k in s'.reasoning ensures Stage(c, s', k) {
      assert Stage(c, s, k);
    }
  }

  lemma SettleSummaryKeeps(c: Context, s: State, l: Life, m: Message, id: string, summary: string)
    requires Underway(c, s, l, m) && Claimed(s, id, "reasoning") && SettleSummary(c, s, id, summary).Ok?
    ensures Continues(c, s, SettleSummary(c, s, id, summary).value, l, m)
  {
    if id !in s.reasoning || (s.reasoning[id].text == "" && summary != "") {
      AppendReasoningKeeps(c, s, l, m, id, summary);
    } else {
      Silent(c, s, l, m);
    }
  }

  lemma FinishReasoningKeeps(c: Context, s: State, l: Life, m: Message, item: Item)
    requires Underway(c, s, l, m) && item.id.Some? && Claimed(s, item.id.value, "reasoning")
    requires FinishReasoning(c, s, item).Ok?
    ensures Continues(c, s, FinishReasoning(c, s, item).value, l, m)
  {
    var id, encrypted := item.id.value, item.encrypted.value;
    var e := SettleSummary(c, s, id, item.summary).value;
    SettleSummaryKeeps(c, s, l, m, id, item.summary);
    HoldCiphertextKeeps(c, e.state, Run(l, e.out).value, Assemble(m, e.out), id, encrypted);
    Chain(c, s, e, Emission(HoldCiphertext(e.state, id, encrypted).value, []), l, m);
  }

  // ---------- Tools ----------

  lemma ToolsFrame(c: Context, s: State, s': State)
    requires Identified(c, s)
    requires s'.outputItems == s.outputItems && s'.texts == s.texts && s'.reasoning == s.reasoning
    requires forall k | k in s'.tools :: ToolNamed(c, s', k)
    ensures Identified(c, s')
  {
  }

  ghost predicate Adds(s: State, s': State, id: string, t: ToolState) {
    && SameLayout(s, s')
    && s'.tools == s.tools[id := t]
    && s'.callIds == s.callIds[t.callId := id]
    && s'.outputItems == s.outputItems && s'.texts == s.texts && s'.reasoning == s.reasoning
    && s'.seals == s.seals && s'.pending == s.pending
  }

  lemma AddToolAdds(s: State, id: string, callId: string, name: string)
    requires id !in s.tools && AddTool(s, id, callId, name).Ok?
    ensures Adds(s, AddTool(s, id, callId, name).value, id, ToolState(None, callId, name, "", false))
  {
  }

  lemma ToolAdded(c: Context, s: State, s': State, id: string, t: ToolState)
    requires Identified(c, s) && id !in s.tools && Claimed(s, id, "function_call")
    requires Adds(s, s', id, t)
    requires t.callId != "" && ByteLen(t.callId) <= MAX_ID_BYTES && t.name != "" && ByteLen(t.name) <= MAX_ID_BYTES
    requires t.arguments == "" && !t.closed
    requires t.callId in s.callIds ==> s.callIds[t.callId] == id
    ensures Identified(c, s')
  {
    forall k | k in s'.tools ensures ToolNamed(c, s', k) {
      if k != id {
        assert ToolNamed(c, s, k);
      }
    }
    ToolsFrame(c, s, s');
  }

  lemma AddToolKeeps(c: Context, s: State, l: Life, m: Message, id: string, callId: string, name: string)
    requires Underway(c, s, l, m) && Claimed(s, id, "function_call")
    requires id !in s.tools && AddTool(s, id, callId, name).Ok?
    requires callId != "" && ByteLen(callId) <= MAX_ID_BYTES && name != "" && ByteLen(name) <= MAX_ID_BYTES
    requires callId in s.callIds ==> s.callIds[callId] == id
    ensures Continues(c, s, Emission(AddTool(s, id, callId, name).value, []), l, m)
    ensures id in AddTool(s, id, callId, name).value.tools
  {
    var t := ToolState(None, callId, name, "", false);
    AddToolAdds(s, id, callId, name);
    AddToolBalanced(s, id, callId, name);
    ToolAdded(c, s, AddTool(s, id, callId, name).value, id, t);
    AddedKeeps(c, s, AddTool(s, id, callId, name).value, l, m, id, t);
  }

  lemma AddedKeeps(c: Context, s: State, s': State, l: Life, m: Message, id: string, t: ToolState)
    requires Underway(c, s, l, m) && Adds(s, s', id, t) && Identified(c, s') && Balanced(s')
    requires t.arguments == "" && !t.closed && t.index.None?
    ensures Continues(c, s, Emission(s', []), l, m)
  {
    CipheredFrame(c, s, s');
    QuietContinues(c, s, s', l, m);
  }

  lemma ClosePendingFrame(c: Context, s: State, toolId: Option<string>)
    requires ClosePendingReasoning(c, s, toolId).Ok?
    ensures
      var s' := ClosePendingReasoning(c, s, toolId).value.state;
      && s'.tools == s.tools && s'.callIds == s.callIds && s'.texts == s.texts && s'.outputItems == s.outputItems
      && s'.blockOrder == s.blockOrder && s'.pending.None?
      && (s.pending.Some? ==> s'.active.None?)
  {
  }

  lemma RegisterToolKeeps(c: Context, s: State, l: Life, m: Message, item: Item)
    requires Underway(c, s, l, m) && item.id.Some? && Claimed(s, item.id.value, "function_call")
    requires RegisterTool(c, s, item).Ok?
    ensures Continues(c, s, RegisterTool(c, s, item).value, l, m)
    ensures item.id.value in RegisterTool(c, s, item).value.state.tools
  {
    if item.id.value in s.tools {
      Silent(c, s, l, m);
    } else {
      var callId := if item.callId.Some? then item.callId.value else item.id.value;
      RegisterNewTool(c, s, l, m, item.id.value, callId, c.toolNames.AnthropicName(item.name));
    }
  }

  lemma RegisterNewTool(c: Context, s: State, l: Life, m: Message, id: string, callId: string, name: string)
    requires Underway(c, s, l, m) && Claimed(s, id, "function_call") && id !in s.tools
    requires callId != "" && ByteLen(callId) <= MAX_ID_BYTES && name != "" && ByteLen(name) <= MAX_ID_BYTES
    requires callId in s.callIds ==> s.callIds[callId] == id
    requires ClosePendingReasoning(c, s, Some(callId)).Ok?
    requires AddTool(ClosePendingReasoning(c, s, Some(callId)).value.state, id, callId, name).Ok?
    ensures
      var e := ClosePendingReasoning(c, s, Some(callId)).value;
      var s' := AddTool(e.state, id, callId, name).value;
      Continues(c, s, Emission(s', e.out), l, m) && id in s'.tools
  {
    var e := ClosePendingReasoning(c, s, Some(callId)).value;
    ClosePendingKeeps(c, s, l, m, Some(callId));
    ClosePendingFrame(c, s, Some(callId));
    AddToolKeeps(c, e.state, Run(l, e.out).value, Assemble(m, e.out), id, callId, name);
    Chain(c, s, e, Emission(AddTool(e.state, id, callId, name).value, []), l, m);
    assert e.out + [] == e.out;
  }

  lemma StartToolOpens(s: State, id: string)
    requires id in s.tools && s.tools[id].index.None? && s.tools[id].arguments == "" && !s.tools[id].closed
    requires StartRegisteredTool(s, id).Ok?
    ensures
      var s', t := StartRegisteredTool(s, id).value.state, s.tools[id];
      Opens(s, s', ToolKey(id), ToolBody(t.callId, t.name, "")) && SameEnvelope(s, s')
  {
  }

  lemma ToolChanged(c: Context, s: State, s': State, id: string, t: ToolState)
    requires Identified(c, s) && id in s.tools
    requires s'.outputItems == s.outputItems && s'.texts == s.texts && s'.reasoning == s.reasoning
    requires s'.callIds == s.callIds && s'.tools == s.tools[id := t]
    requires t.callId == s.tools[id].callId && t.name == s.tools[id].name
    requires ByteLen(t.arguments) <= MAX_TOOL_ARGUMENT_BYTES
    requires
      t.closed ==> t.arguments != "" && c.codec.parse(t.arguments).Some? && c.codec.parse(t.arguments).value.JObject?
    ensures Identified(c, s')
  {
    forall k | k in s'.tools ensures ToolNamed(c, s', k) {
      assert ToolNamed(c, s, k);
    }
    ToolsFrame(c, s, s');
  }

  lemma StartToolKeeps(c: Context, s: State, l: Life, m: Message, id: string)
    requires Underway(c, s, l, m)
    requires StartRegisteredTool(s, id).Ok?
    ensures Continues(c, s, StartRegisteredTool(s, id).value, l, m)
    ensures StartRegisteredTool(s, id).value.state.active == Some(ToolKey(id))
  {
    var e := StartRegisteredTool(s, id).value;
    if id in s.tools && s.tools[id].index.Some? {
      Silent(c, s, l, m);
    } else {
      var t := s.tools[id];
      assert ToolNamed(c, s, id);
      StartToolOpens(s, id);
      CipheredFrame(c, s, e.state);
      ToolChanged(c, s, e.state, id, t.(index := Some(s.nextIndex)));
      StartToolBalanced(s, id);
      OpenContinues(c, s, e, l, m, ToolKey(id), ToolBody(t.callId, t.name, ""), ToolHead(t.callId, t.name));
    }
  }

  lemma PushArgumentsEdits(s: State, id: string, delta: string)
    requires s.active == Some(ToolKey(id)) && PushArguments(s, id, delta).Ok?
    ensures id in s.tools
    ensures
      var s', t := PushArguments(s, id, delta).value.state, s.tools[id];
      Edits(s, s', ToolKey(id), ToolBody(t.callId, t.name, t.arguments + delta)) && SameEnvelope(s, s')
  {
  }

  lemma PushArgumentsIdentified(c: Context, s: State, id: string, delta: string)
    requires Identified(c, s) && s.active == Some(ToolKey(id)) && PushArguments(s, id, delta).Ok?
    requires id in s.tools && !s.tools[id].closed
    ensures Identified(c, PushArguments(s, id, delta).value.state)
  {
    var t := s.tools[id];
    ByteLenConcat(t.arguments, delta);
    assert ToolNamed(c, s, id);
    ToolChanged(c, s, PushArguments(s, id, delta).value.state, id, t.(arguments := t.arguments + delta));
  }

  lemma PushArgumentsKeeps(c: Context, s: State, l: Life, m: Message, id: string, delta: string)
    requires Underway(c, s, l, m) && s.active == Some(ToolKey(id))
    requires PushArguments(s, id, delta).Ok?
    ensures Continues(c, s, PushArguments(s, id, delta).value, l, m)
    ensures PushArguments(s, id, delta).value.state.active == Some(ToolKey(id))
  {
    var e := PushArguments(s, id, delta).value;
    PushArgumentsEdits(s, id, delta);
    CipheredFrame(c, s, e.state);
    ActiveIsLast(c, s, l, m, ToolKey(id));
    PushArgumentsIdentified(c, s, id, delta);
    assert delta == "" ==> s.tools[id].arguments + delta == s.tools[id].arguments;
    PushArgumentsBalanced(s, id, delta);
    EditContinues(c, s, e, l, m, ToolKey(id), InputJsonDelta(delta));
  }

  lemma AppendToolKeeps(c: Context, s: State, l: Life, m: Message, id: string, callId: Option<string>, delta: string)
    requires Underway(c, s, l, m)
    requires AppendTool(s, id, callId, delta).Ok?
    ensures Continues(c, s, AppendTool(s, id, callId, delta).value, l, m)
    ensures AppendTool(s, id, callId, delta).value.state.active == Some(ToolKey(id))
  {
    var e := StartRegisteredTool(s, id).value;
    StartToolKeeps(c, s, l, m, id);
    PushArgumentsKeeps(c, e.state, Run(l, e.out).value, Assemble(m, e.out), id, delta);
    Chain(c, s, e, PushArguments(e.state, id, delta).value, l, m);
  }

  ghost predicate ToolClosed(c: Context, s: State, e: Emission, id: string, arguments: string) {
    && id in s.tools && s.tools[id].index.Some? && !s.tools[id].closed && s.active == Some(ToolKey(id))
    && arguments == (if s.tools[id].arguments == "" then "{}" else s.tools[id].arguments)
    && c.codec.parse(arguments).Some? && c.codec.parse(arguments).value.JObject?
    && SameButBudgets(
         s.(active := None, tools := s.tools[id := s.tools[id].(arguments := arguments, closed := true)]), e.state)
    && e.out == [BlockStop(s.tools[id].index.value)]
  }

  lemma ToolClosedSound(c: Context, s: State, e: Emission, id: string, arguments: string)
    requires Unstarted(s) && Ciphered(c, s) && Identified(c, s) && ToolClosed(c, s, e, id, arguments)
    requires Balanced(e.state)
    ensures Sound(c, s, e.state)
  {
    assert ToolNamed(c, s, id);
    assert ByteLen("{}") == 2;
    ToolChanged(c, s, e.state, id, s.tools[id].(arguments := arguments, closed := true));
    CipheredFrame(c, s, e.state);
  }

  lemma ToolClosedCloses(c: Context, s: State, e: Emission, id: string, arguments: string)
    requires ToolClosed(c, s, e, id, arguments)
    ensures Closes(s, e.state, ToolKey(id), ToolBody(s.tools[id].callId, s.tools[id].name, arguments))
  {
  }

  lemma CloseToolState(c: Context, s: State, id: string)
    requires id in s.tools && CloseTool(c, s, id).Ok?
    ensures
      var t, e := s.tools[id], CloseTool(c, s, id).value;
      && !t.closed && t.index.Some? && s.active == Some(ToolKey(id))
      && c.codec.parse(t.arguments).Some? && c.codec.parse(t.arguments).value.JObject?
      && e == Emission(s.(active := None, tools := s.tools[id := t.(closed := true)]), [BlockStop(t.index.value)])
  {
  }

  lemma CloseFilled(c: Context, s: State, id: string, filled: State, arguments: string)
    requires id in s.tools && arguments == if s.tools[id].arguments == "" then "{}" else s.tools[id].arguments
    requires SameButBudgets(s.(tools := filled.tools), filled)
    requires filled.tools == s.tools[id := s.tools[id].(arguments := arguments)]
    requires CloseTool(c, filled, id).Ok?
    ensures ToolClosed(c, s, CloseTool(c, filled, id).value, id, arguments)
  {
    CloseToolState(c, filled, id);
    var t := s.tools[id].(arguments := arguments);
    assert s.tools[id := t][id := t.(closed := true)] == s.tools[id := t.(closed := true)];
  }

  lemma FillAndCloseState(c: Context, s: State, id: string) returns (arguments: string)
    requires FillAndClose(c, s, id).Ok?
    ensures ToolClosed(c, s, FillAndClose(c, s, id).value, id, arguments)
  {
    arguments := if s.tools[id].arguments == "" then "{}" else s.tools[id].arguments;
    var filled := FillArguments(s, id).value;
    if s.tools[id].arguments != "" {
      assert s.tools[id := s.tools[id].(arguments := arguments)] == s.tools;
    }
    CloseFilled(c, s, id, filled, arguments);
  }

  /** Filling in the empty object and closing go together: only then may block and stream differ. */
  lemma FillAndCloseKeeps(c: Context, s: State, l: Life, m: Message, id: string)
    requires Underway(c, s, l, m) && FillAndClose(c, s, id).Ok?
    ensures Continues(c, s, FillAndClose(c, s, id).value, l, m)
  {
    var e := FillAndClose(c, s, id).value;
    var arguments := FillAndCloseState(c, s, id);
    FillAndCloseBalanced(c, s, id);
    ToolClosedSound(c, s, e, id, arguments);
    ToolClosedCloses(c, s, e, id, arguments);
    ActiveIsLast(c, s, l, m, ToolKey(id));
    CloseContinues(c, s, e, l, m, ToolKey(id), ToolBody(s.tools[id].callId, s.tools[id].name, arguments));
  }

  lemma SettleArgumentsKeeps(c: Context, s: State, l: Life, m: Message, id: string, item: Item)
    requires Underway(c, s, l, m) && s.active == Some(ToolKey(id)) && SettleArguments(s, id, item).Ok?
    ensures Continues(c, s, SettleArguments(s, id, item).value, l, m)
    ensures SettleArguments(s, id, item).value.state.active == Some(ToolKey(id))
  {
    if s.tools[id].arguments == "" && item.arguments != "" {
      AppendToolKeeps(c, s, l, m, id, item.callId, item.arguments);
    } else {
      Silent(c, s, l, m);
    }
  }

  lemma FinishToolKeeps(c: Context, s: State, l: Life, m: Message, item: Item)
    requires Underway(c, s, l, m) && item.id.Some? && Claimed(s, item.id.value, "function_call")
    requires FinishTool(c, s, item).Ok?
    ensures Continues(c, s, FinishTool(c, s, item).value, l, m)
  {
    var id := item.id.value;
    var e := RegisterTool(c, s, item).value;
    RegisterToolKeeps(c, s, l, m, item);
    var f := StartRegisteredTool(e.state, id).value;
    StartToolKeeps(c, e.state, Run(l, e.out).value, Assemble(m, e.out), id);
    Chain(c, s, e, f, l, m);
    var ef := Emission(f.state, e.out + f.out);
    var g := SettleArguments(f.state, id, item).value;
    SettleArgumentsKeeps(c, f.state, Run(l, ef.out).value, Assemble(m, ef.out), id, item);
    Chain(c, s, ef, g, l, m);
    var efg := Emission(g.state, ef.out + g.out);
    FillAndCloseKeeps(c, g.state, Run(l, efg.out).value, Assemble(m, efg.out), id);
    Chain(c, s, efg, FillAndClose(c, g.state, id).value, l, m);
  }
}
