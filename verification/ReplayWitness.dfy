/**
  A completed answer that cannot be handed back: a run of seven events, followed one by one through the reducer with
  bounds on every byte total, so that nothing but the order of the calls is in the way.
 */
module ReplayWitness {
  // Two calls are registered after a reasoning item: the item is sealed for the first, the second opens its block first.

  import opened Wrappers
  import Sequences
  import opened Utf8
  import opened JsonValues
  import opened ThinkingSignature
  import opened ToolNames
  import opened Reducer
  import opened OneShotAnswer
  import opened HistoryTranslation
  import opened CloserWatch
  import opened ReplayTurn
  import opened ReplayUpstream

  const THOUGHT := Item(Some("reasoning"), Some("r"), None, "", "", "", "", Some("x"), "")

  function Call(id: string): Item {
    Item(Some("function_call"), Some(id), None, "", "f", "", "", None, "")
  }

  /** Both calls are announced before either is completed, and they are completed in the other order. */
  function CrossedCalls(usage: Usage): seq<UpstreamEvent> {
    [Created(None, usage), OutputItemDone(Some(THOUGHT)),
     OutputItemAdded(Some(Call("a"))), OutputItemAdded(Some(Call("b"))),
     OutputItemDone(Some(Call("b"))), OutputItemDone(Some(Call("a"))),
     Completed(usage)]
  }

  /** The reasoning item can be sealed for the first call, and the empty object is read as one. */
  predicate Ready(c: Reducer.Context) {
    && c.signer.Seal(c.authEpoch, c.accountHash, "r", Some("a"), "x").Ok?
    && c.codec.parse("{}").Some? && c.codec.parse("{}").value.JObject?
    && ByteLen(c.codec.write(c.codec.parse("{}").value)) <= MAX_TOOL_ARGUMENT_BYTES
    && c.toolNames.AnthropicName("f") == "f"
  }

  // ---------- Sizes ----------

  lemma Sizes(s: string, n: nat)
    requires |s| <= n
    ensures ByteLen(s) <= 4 * n && EscapedJsonLen(s) <= 24 * n
  {
    ShortBytes(s);
    EscapedBytes(s);
  }

  /** Far below every limit; one signature and a few identities fit. */
  predicate Light(s: State, stored: nat, estimated: nat) {
    s.totalText == 0 && s.totalReasoning <= 4 && s.stored <= stored && s.estimated <= estimated
  }

  lemma Identity(s: State, value: string, overhead: nat, stored: nat, estimated: nat)
    requires |value| == 1 && overhead <= 192 && Light(s, stored, estimated)
    requires stored <= 10_000_000 && estimated <= 60_000_000
    ensures
      var r := ReserveIdentity(s, value, overhead);
      && r.Ok? && SameButBudgets(s, r.value) && r.value.totalReasoning == s.totalReasoning
      && Light(r.value, stored + 200, estimated + 220)
  {
    Sizes(value, 1);
  }

  // ---------- Single operations ----------

  predicate Running(s: State) {
    s.created && s.started && !s.completed && !s.failed
  }

  lemma Notes(s: State, item: Item)
    requires item.kind.Some? && 0 < |item.kind.value| <= 16 && item.id.Some? && |item.id.value| == 1
    requires item.id.value in s.outputItems ==> s.outputItems[item.id.value] == item.kind.value
    requires |s.outputItems| <= 9
    ensures NoteOutputItem(s, item) == Ok(s.(outputItems := s.outputItems[item.id.value := item.kind.value]))
  {
    Sizes(item.kind.value, 16);
    Sizes(item.id.value, 1);
    if item.id.value in s.outputItems {
      assert s.outputItems[item.id.value := item.kind.value] == s.outputItems;
    }
  }

  /** An item that was claimed before changes nothing. */
  lemma NotesAgain(s: State, item: Item)
    requires item.kind.Some? && 0 < |item.kind.value| <= 16 && item.id.Some? && |item.id.value| == 1
    requires item.id.value in s.outputItems && s.outputItems[item.id.value] == item.kind.value
    requires |s.outputItems| <= 9
    ensures NoteOutputItem(s, item) == Ok(s)
  {
    Sizes(item.kind.value, 16);
    Sizes(item.id.value, 1);
  }

  /** Adding a call that is new, where nothing is pending. */
  lemma Adds(s: State, id: string, stored: nat, estimated: nat)
    requires |id| == 1 && Light(s, stored, estimated)
    requires stored <= 9_000_000 && estimated <= 59_000_000
    ensures
      var r := AddTool(s, id, id, "f");
      && r.Ok? && Light(r.value, stored + 600, estimated + 660)
      && SameButBudgets(s.(callIds := s.callIds[id := id], tools := s.tools[id := ToolState(None, id, "f", "", false)]), r.value)
  {
    Identity(s, id, TOOL_OVERHEAD, stored, estimated);
    var s1 := ReserveIdentity(s, id, TOOL_OVERHEAD).value;
    Identity(s1, id, 0, stored + 200, estimated + 220);
    var s2 := ReserveIdentity(s1, id, 0).value;
    Identity(s2, "f", 0, stored + 400, estimated + 440);
  }

  predicate RoomFor(c: Reducer.Context, s: State, id: string) {
    && |id| == 1 && c.toolNames.AnthropicName("f") == "f"
    && id !in s.tools && |s.tools| < 9 && id !in s.callIds
  }

  lemma RegistersCall(c: Reducer.Context, s: State, id: string, stored: nat, estimated: nat)
    requires RoomFor(c, s, id)
    requires
      var closed := ClosePendingReasoning(c, s, Some(id));
      closed.Ok? && Light(closed.value.state, stored, estimated)
    requires stored <= 9_000_000 && estimated <= 59_000_000
    ensures
      var r, closed := RegisterTool(c, s, Call(id)), ClosePendingReasoning(c, s, Some(id)).value.state;
      && r.Ok? && Light(r.value.state, stored + 600, estimated + 660)
      && SameButBudgets(
           closed.(callIds := closed.callIds[id := id], tools := closed.tools[id := ToolState(None, id, "f", "", false)]),
           r.value.state)
  {
    Sizes(id, 1);
    Sizes("f", 1);
    ShortBytes(id);
    Adds(ClosePendingReasoning(c, s, Some(id)).value.state, id, stored, estimated);
  }

  lemma KnownCall(c: Reducer.Context, s: State, id: string)
    requires |id| == 1 && c.toolNames.AnthropicName("f") == "f"
    requires id in s.tools && s.tools[id] == ToolState(None, id, "f", "", false)
    ensures RequiredId(Some(id), "output item id is invalid") == Ok(id)
    ensures RegisterTool(c, s, Call(id)) == Ok(Emission(s, []))
  {
    Sizes(id, 1);
    Sizes("f", 1);
    ShortBytes(id);
  }

  lemma FillsAndCloses(c: Reducer.Context, s: State, id: string, index: nat, stored: nat, estimated: nat)
    requires id in s.tools && s.tools[id] == ToolState(Some(index), id, "f", "", false) && s.active == Some(ToolKey(id))
    requires c.codec.parse("{}").Some? && c.codec.parse("{}").value.JObject?
    requires Light(s, stored, estimated) && stored <= 9_000_000 && estimated <= 59_000_000
    ensures
      var r := FillAndClose(c, s, id);
      && r.Ok? && Light(r.value.state, stored + 2, estimated + 2)
      && SameButBudgets(
           s.(tools := s.tools[id := ToolState(Some(index), id, "f", "{}", true)], active := None), r.value.state)
  {
    var filled := FillArguments(s, id).value;
    assert filled.tools[id := ToolState(Some(index), id, "f", "{}", true)]
        == s.tools[id := ToolState(Some(index), id, "f", "{}", true)];
  }

  /** A call that was announced is completed: its block opens, is given the empty object, and closes. */
  lemma FinishesCall(c: Reducer.Context, s: State, id: string, stored: nat, estimated: nat)
    requires |id| == 1 && c.toolNames.AnthropicName("f") == "f" && s.active.None?
    requires id in s.tools && s.tools[id] == ToolState(None, id, "f", "", false)
    requires c.codec.parse("{}").Some? && c.codec.parse("{}").value.JObject?
    requires Light(s, stored, estimated) && stored <= 9_000_000 && estimated <= 59_000_000
    ensures
      var r := FinishTool(c, s, Call(id));
      && r.Ok? && Light(r.value.state, stored + 2, estimated + 2)
      && SameButBudgets(
           s.(nextIndex := s.nextIndex + 1,
              tools := s.tools[id := ToolState(Some(s.nextIndex), id, "f", "{}", true)],
              blockOrder := s.blockOrder + [ToolKey(id)]),
           r.value.state)
  {
    KnownCall(c, s, id);
    var begun := StartRegisteredTool(s, id).value.state;
    assert SettleArguments(begun, id, Call(id)) == Ok(Emission(begun, []));
    FillsAndCloses(c, begun, id, s.nextIndex, stored, estimated);
    assert begun.tools[id := ToolState(Some(s.nextIndex), id, "f", "{}", true)]
        == s.tools[id := ToolState(Some(s.nextIndex), id, "f", "{}", true)];
  }

  // ---------- The run, event by event ----------

  predicate Started(s: State) {
    && Running(s) && Light(s, 0, 512) && s.totalReasoning == 0 && s.nextIndex == 0
    && s.texts == map[] && s.reasoning == map[] && s.tools == map[] && s.callIds == map[] && s.outputItems == map[]
    && s.blockOrder == [] && s.active.None? && s.pending.None? && s.seals == map[]
  }

  const HELD := ReasoningState(0, "", Some("x"), None, true, false)

  predicate Waiting(s: State) {
    && Running(s) && Light(s, 300, 1000) && s.nextIndex == 1
    && s.texts == map[] && s.reasoning == map["r" := HELD] && s.tools == map[] && s.callIds == map[]
    && "a" !in s.outputItems && "b" !in s.outputItems && |s.outputItems| <= 1
    && s.blockOrder == [ReasoningKey("r")]
    && s.active == Some(ReasoningKey("r")) && s.pending == Some("r")
    && s.seals == map[]
  }

  predicate Claims(s: State, id: string) {
    id in s.outputItems && s.outputItems[id] == "function_call"
  }

  /** The reasoning item is sealed for the first call. */
  predicate SealedForFirst(s: State) {
    && Running(s) && s.active.None? && s.pending.None? && s.texts == map[]
    && s.nextIndex == |s.blockOrder|
    && s.reasoning.Keys == {"r"} && s.reasoning["r"].closed
    && s.seals == map["r" := Seal(Some("a"), "x")]
  }

  const ANNOUNCED_A := ToolState(None, "a", "f", "", false)
  const ANNOUNCED_B := ToolState(None, "b", "f", "", false)

  const COMPLETED_B := ToolState(Some(1), "b", "f", "{}", true)
  const COMPLETED_A := ToolState(Some(2), "a", "f", "{}", true)

  predicate FirstAnnounced(s: State) {
    && SealedForFirst(s) && Light(s, 8_400_000, 51_000_000)
    && s.tools == map["a" := ANNOUNCED_A] && s.callIds == map["a" := "a"]
    && Claims(s, "a") && "b" !in s.outputItems && |s.outputItems| <= 2
    && s.blockOrder == [ReasoningKey("r")]
  }

  predicate BothAnnounced(s: State) {
    && SealedForFirst(s) && Light(s, 8_500_000, 51_100_000)
    && s.tools == map["a" := ANNOUNCED_A, "b" := ANNOUNCED_B]
    && Claims(s, "a") && Claims(s, "b") && |s.outputItems| <= 3
    && s.blockOrder == [ReasoningKey("r")]
  }

  predicate SecondCompleted(s: State) {
    && SealedForFirst(s) && Light(s, 8_600_000, 51_200_000)
    && s.tools.Keys == {"a", "b"} && s.tools["a"] == ANNOUNCED_A && s.tools["b"] == COMPLETED_B
    && Claims(s, "a") && Claims(s, "b") && |s.outputItems| <= 3
    && s.blockOrder == [ReasoningKey("r"), ToolKey("b")]
  }

  predicate AllCompleted(s: State) {
    && SealedForFirst(s) && Light(s, 9_000_000, 60_000_000)
    && s.tools.Keys == {"a", "b"} && s.tools["a"] == COMPLETED_A && s.tools["b"] == COMPLETED_B
    && s.blockOrder == [ReasoningKey("r"), ToolKey("b"), ToolKey("a")]
  }

  lemma IsAdded(c: Reducer.Context, s: State, e: UpstreamEvent)
    requires s.created && !s.completed && !s.failed && e.OutputItemAdded? && e.item.Some?
    ensures Apply(c, s, e) == ApplyItemAdded(c, s, e.item.value)
  {
  }

  lemma IsDone(c: Reducer.Context, s: State, e: UpstreamEvent)
    requires s.created && !s.completed && !s.failed && e.OutputItemDone? && e.item.Some?
    ensures Apply(c, s, e) == ApplyItemDone(c, s, e.item.value)
  {
  }

  lemma Added(c: Reducer.Context, s: State, item: Item, noted: State, done: Emission)
    requires s.started && item.kind == Some("function_call")
    requires NoteOutputItem(s, item) == Ok(noted) && RegisterTool(c, noted, item) == Ok(done)
    ensures ApplyItemAdded(c, s, item).Ok? && ApplyItemAdded(c, s, item).value.state == done.state
  {
  }

  lemma CallDone(c: Reducer.Context, s: State, item: Item, noted: State, done: Emission)
    requires s.started && item.kind == Some("function_call")
    requires NoteOutputItem(s, item) == Ok(noted) && FinishTool(c, noted, item) == Ok(done)
    ensures ApplyItemDone(c, s, item).Ok? && ApplyItemDone(c, s, item).value.state == done.state
  {
  }

  lemma ThoughtDone(c: Reducer.Context, s: State, item: Item, noted: State, done: Emission)
    requires s.started && item.kind == Some("reasoning")
    requires NoteOutputItem(s, item) == Ok(noted) && FinishReasoning(c, noted, item) == Ok(done)
    ensures ApplyItemDone(c, s, item).Ok? && ApplyItemDone(c, s, item).value.state == done.state
  {
  }

  /** The item's block opens, stays empty, and holds the ciphertext. */
  lemma FinishesThought(c: Reducer.Context, s: State)
    requires Running(s) && Light(s, 0, 512) && s.totalReasoning == 0 && s.reasoning == map[] && s.active.None? && s.pending.None?
    ensures
      var r := FinishReasoning(c, s, THOUGHT);
      && r.Ok? && Light(r.value.state, 300, 1000)
      && SameButBudgets(
           s.(nextIndex := s.nextIndex + 1,
              reasoning := map["r" := HELD.(index := s.nextIndex)],
              blockOrder := s.blockOrder + [ReasoningKey("r")],
              active := Some(ReasoningKey("r")), pending := Some("r")),
           r.value.state)
  {
    Sizes("r", 1);
    Sizes("x", 1);
    Identity(s, "r", REASONING_OVERHEAD, 0, 512);
    var begun := OpenReasoning(s, "r").value.state;
    assert begun.reasoning == map["r" := ReasoningState(s.nextIndex, "", None, None, false, false)];
    PushesNothing(begun, "r");
    AppendsNothing(c, s, "r", begun);
    HoldsThought(begun, s.nextIndex);
  }

  lemma AppendsNothing(c: Reducer.Context, s: State, id: string, begun: State)
    requires s.reasoning == map[] && s.pending.None?
    requires OpenReasoning(s, id).Ok? && OpenReasoning(s, id).value.state == begun
    requires PushReasoning(begun, id, "") == Ok(Emission(begun, []))
    ensures SettleSummary(c, s, id, "").Ok? && SettleSummary(c, s, id, "").value.state == begun
  {
  }

  lemma HoldsThought(s: State, index: nat)
    requires s.reasoning == map["r" := ReasoningState(index, "", None, None, false, false)]
    requires Light(s, 200, 732) && s.totalReasoning == 0
    ensures
      var r := HoldCiphertext(s, "r", "x");
      && r.Ok? && Light(r.value, 300, 1000)
      && SameButBudgets(s.(reasoning := map["r" := HELD.(index := index)], pending := Some("r")), r.value)
  {
    Sizes("x", 1);
    assert s.reasoning["r" := HELD.(index := index)] == map["r" := HELD.(index := index)];
  }

  predicate Concluded(s: State) {
    && s.completed && s.totalText == 0 && s.totalReasoning <= 4
    && s.tools.Keys == {"a", "b"} && s.tools["a"] == COMPLETED_A && s.tools["b"] == COMPLETED_B
  }

  lemma CompletesThought(c: Reducer.Context, s: State, e: UpstreamEvent)
    requires Started(s) && e.OutputItemDone? && e.item == Some(THOUGHT)
    ensures Apply(c, s, e).Ok? && Waiting(Apply(c, s, e).value.state)
  {
    Notes(s, THOUGHT);
    var noted := NoteOutputItem(s, THOUGHT).value;
    FinishesThought(c, noted);
    IsDone(c, s, e);
    ThoughtDone(c, s, THOUGHT, noted, FinishReasoning(c, noted, THOUGHT).value);
    ThenWaits(s, noted, FinishReasoning(c, noted, THOUGHT).value.state);
  }

  lemma ThenWaits(s: State, noted: State, s': State)
    requires Started(s) && noted == s.(outputItems := s.outputItems["r" := "reasoning"])
    requires Light(s', 300, 1000)
    requires
      SameButBudgets(
        noted.(nextIndex := noted.nextIndex + 1,
               reasoning := map["r" := HELD.(index := noted.nextIndex)],
               blockOrder := noted.blockOrder + [ReasoningKey("r")],
               active := Some(ReasoningKey("r")), pending := Some("r")),
        s')
    ensures Waiting(s')
  {
  }

  lemma PushesNothing(s: State, id: string)
    requires s.active == Some(ReasoningKey(id)) && id in s.reasoning
    requires !s.reasoning[id].done && !s.reasoning[id].closed && Light(s, 300, 1000)
    ensures PushReasoning(s, id, "") == Ok(Emission(s, []))
  {
    assert s.reasoning[id].text + "" == s.reasoning[id].text;
    assert s.reasoning[id := s.reasoning[id]] == s.reasoning;
  }

  lemma SealsForFirst(c: Reducer.Context, s: State)
    requires Ready(c) && Running(s) && Light(s, 300, 1000) && s.texts == map[]
    requires s.reasoning == map["r" := HELD] && s.active == Some(ReasoningKey("r")) && s.pending == Some("r")
    requires s.seals == map[] && s.nextIndex == |s.blockOrder|
    ensures
      var r := ClosePendingReasoning(c, s, Some("a"));
      && r.Ok? && SealedForFirst(r.value.state) && Light(r.value.state, 8_389_000, 50_400_000)
      && r.value.state.tools == s.tools && r.value.state.callIds == s.callIds
      && r.value.state.outputItems == s.outputItems && r.value.state.blockOrder == s.blockOrder
  {
    var signature := c.signer.Seal(c.authEpoch, c.accountHash, "r", Some("a"), "x").value;
    assert ByteLen(signature) <= MAX_SIGNATURE_BYTES;
    EscapedBytes(signature);
    var released := ReleaseStored(s, ByteLen("x"));
    assert ReservePayload(released, ByteLen(signature), EscapedJsonLen(signature)).Ok?;
  }

  /** What announcing a call does where the pending item, if there is one, is sealed first. */
  predicate Announced(closed: State, id: string, s': State) {
    SameButBudgets(
      closed.(callIds := closed.callIds[id := id], tools := closed.tools[id := ToolState(None, id, "f", "", false)]), s')
  }

  lemma AnnouncesCall(c: Reducer.Context, s: State, e: UpstreamEvent, id: string, stored: nat, estimated: nat)
    requires Running(s) && e.OutputItemAdded? && e.item == Some(Call(id))
    requires RoomFor(c, s, id) && id !in s.outputItems && |s.outputItems| <= 9
    requires
      var closed := ClosePendingReasoning(c, s.(outputItems := s.outputItems[id := "function_call"]), Some(id));
      closed.Ok? && Light(closed.value.state, stored, estimated)
    requires stored <= 9_000_000 && estimated <= 59_000_000
    ensures Apply(c, s, e).Ok? && Light(Apply(c, s, e).value.state, stored + 600, estimated + 660)
    ensures
      var closed := ClosePendingReasoning(c, s.(outputItems := s.outputItems[id := "function_call"]), Some(id));
      Announced(closed.value.state, id, Apply(c, s, e).value.state)
  {
    var item := e.item.value;
    Notes(s, item);
    var noted := NoteOutputItem(s, item).value;
    RegistersCall(c, noted, id, stored, estimated);
    IsAdded(c, s, e);
    Added(c, s, item, noted, RegisterTool(c, noted, item).value);
  }

  predicate CallCompleted(s: State, id: string, s': State) {
    SameButBudgets(
      s.(nextIndex := s.nextIndex + 1,
         tools := s.tools[id := ToolState(Some(s.nextIndex), id, "f", "{}", true)],
         blockOrder := s.blockOrder + [ToolKey(id)]),
      s')
  }

  lemma CompletesCall(c: Reducer.Context, s: State, e: UpstreamEvent, id: string, stored: nat, estimated: nat)
    requires Ready(c) && Running(s) && e.OutputItemDone? && e.item == Some(Call(id))
    requires |id| == 1 && Claims(s, id) && |s.outputItems| <= 9 && s.active.None?
    requires id in s.tools && s.tools[id] == ToolState(None, id, "f", "", false)
    requires Light(s, stored, estimated) && stored <= 9_000_000 && estimated <= 59_000_000
    ensures Apply(c, s, e).Ok? && Light(Apply(c, s, e).value.state, stored + 2, estimated + 2)
    ensures CallCompleted(s, id, Apply(c, s, e).value.state)
  {
    var item := e.item.value;
    NotesAgain(s, item);
    FinishesCall(c, s, id, stored, estimated);
    IsDone(c, s, e);
    CallDone(c, s, item, s, FinishTool(c, s, item).value);
  }

  lemma AnnouncesFirst(c: Reducer.Context, s: State, e: UpstreamEvent)
    requires Ready(c) && Waiting(s) && e.OutputItemAdded? && e.item == Some(Call("a"))
    ensures Apply(c, s, e).Ok? && FirstAnnounced(Apply(c, s, e).value.state)
  {
    var noted := s.(outputItems := s.outputItems["a" := "function_call"]);
    SealsForFirst(c, noted);
    AnnouncesCall(c, s, e, "a", 8_389_000, 50_400_000);
  }

  lemma AnnouncesSecond(c: Reducer.Context, s: State, e: UpstreamEvent)
    requires Ready(c) && FirstAnnounced(s) && e.OutputItemAdded? && e.item == Some(Call("b"))
    ensures Apply(c, s, e).Ok? && BothAnnounced(Apply(c, s, e).value.state)
  {
    var noted := s.(outputItems := s.outputItems["b" := "function_call"]);
    assert ClosePendingReasoning(c, noted, Some("b")) == Ok(Emission(noted, []));
    AnnouncesCall(c, s, e, "b", 8_400_000, 51_000_000);
  }

  lemma CompletesSecond(c: Reducer.Context, s: State, e: UpstreamEvent)
    requires Ready(c) && BothAnnounced(s) && e.OutputItemDone? && e.item == Some(Call("b"))
    ensures Apply(c, s, e).Ok? && SecondCompleted(Apply(c, s, e).value.state)
  {
    CompletesCall(c, s, e, "b", 8_500_000, 51_100_000);
  }

  lemma ThenAllCompleted(s: State, s': State)
    requires SecondCompleted(s) && CallCompleted(s, "a", s') && Light(s', 9_000_000, 60_000_000)
    ensures AllCompleted(s')
  {
  }

  lemma CompletesFirst(c: Reducer.Context, s: State, e: UpstreamEvent)
    requires Ready(c) && SecondCompleted(s) && e.OutputItemDone? && e.item == Some(Call("a"))
    ensures Apply(c, s, e).Ok? && AllCompleted(Apply(c, s, e).value.state)
  {
    CompletesCall(c, s, e, "a", 8_600_000, 51_200_000);
    ThenAllCompleted(s, Apply(c, s, e).value.state);
  }

  lemma Ends(c: Reducer.Context, s: State, usage: Usage)
    requires AllCompleted(s)
    ensures
      var r := Apply(c, s, Completed(usage));
      r.Ok? && Concluded(r.value.state)
  {
    assert ClosePendingReasoning(c, s, None) == Ok(Emission(s, []));
    assert !AnyOpen(s);
    assert EnsureContent(c, s) == Ok(Emission(s, []));
  }

  lemma RunStep(c: Reducer.Context, es: seq<UpstreamEvent>, before: Emission, now: Emission)
    requires es != [] && RunAll(c, es[..|es| - 1]) == Ok(before) && Apply(c, before.state, es[|es| - 1]) == Ok(now)
    ensures RunAll(c, es) == Ok(Emission(now.state, before.out + now.out))
  {
  }

  /** One event further along a sequence. */
  lemma Extends(c: Reducer.Context, es: seq<UpstreamEvent>, k: nat, now: Emission)
    requires k < |es| && RunAll(c, es[..k]).Ok? && Apply(c, RunAll(c, es[..k]).value.state, es[k]) == Ok(now)
    ensures RunAll(c, es[..k + 1]).Ok? && RunAll(c, es[..k + 1]).value.state == now.state
  {
    assert es[..k + 1][..k] == es[..k];
    RunStep(c, es[..k + 1], RunAll(c, es[..k]).value, now);
  }

  lemma WatchExtends(es: seq<UpstreamEvent>, k: nat)
    requires k < |es|
    ensures Watched(es[..k + 1]) == Sees(Watched(es[..k]), es[k])
  {
    Sequences.Snoc(es[..k], es[k]);
    assert es[..k + 1] == es[..k] + [es[k]];
  }

  lemma Begins(c: Reducer.Context, es: seq<UpstreamEvent>, usage: Usage)
    requires es == CrossedCalls(usage)
    ensures RunAll(c, es[..1]).Ok? && Started(RunAll(c, es[..1]).value.state)
  {
    assert es[..0] == [];
    assert Apply(c, Fresh, es[0]).Ok? && Started(Apply(c, Fresh, es[0]).value.state);
    Extends(c, es, 0, Apply(c, Fresh, es[0]).value);
  }

  lemma ReachesFirstAnnounced(c: Reducer.Context, es: seq<UpstreamEvent>, usage: Usage)
    requires Ready(c) && es == CrossedCalls(usage)
    ensures RunAll(c, es[..3]).Ok? && FirstAnnounced(RunAll(c, es[..3]).value.state)
  {
    Begins(c, es, usage);
    var s := RunAll(c, es[..1]).value.state;
    CompletesThought(c, s, es[1]);
    Extends(c, es, 1, Apply(c, s, es[1]).value);
    s := RunAll(c, es[..2]).value.state;
    AnnouncesFirst(c, s, es[2]);
    Extends(c, es, 2, Apply(c, s, es[2]).value);
  }

  lemma ReachesSecondCompleted(c: Reducer.Context, es: seq<UpstreamEvent>, usage: Usage)
    requires Ready(c) && es == CrossedCalls(usage)
    ensures RunAll(c, es[..5]).Ok? && SecondCompleted(RunAll(c, es[..5]).value.state)
  {
    ReachesFirstAnnounced(c, es, usage);
    var s := RunAll(c, es[..3]).value.state;
    AnnouncesSecond(c, s, es[3]);
    Extends(c, es, 3, Apply(c, s, es[3]).value);
    s := RunAll(c, es[..4]).value.state;
    CompletesSecond(c, s, es[4]);
    Extends(c, es, 4, Apply(c, s, es[4]).value);
  }

  lemma ReachesTheEnd(c: Reducer.Context, es: seq<UpstreamEvent>, usage: Usage)
    requires Ready(c) && es == CrossedCalls(usage)
    ensures RunAll(c, es).Ok? && Concluded(RunAll(c, es).value.state)
  {
    ReachesSecondCompleted(c, es, usage);
    var s := RunAll(c, es[..5]).value.state;
    CompletesFirst(c, s, es[5]);
    Extends(c, es, 5, Apply(c, s, es[5]).value);
    s := RunAll(c, es[..6]).value.state;
    Ends(c, s, usage);
    Extends(c, es, 6, Apply(c, s, es[6]).value);
    assert es[..7] == es;
  }

  lemma WatchesCrossing(es: seq<UpstreamEvent>, usage: Usage)
    requires es == CrossedCalls(usage)
    ensures !ClosersOpenNext(es)
  {
    assert es[..0] == [];
    WatchExtends(es, 0);
    WatchExtends(es, 1);
    assert Watched(es[..2]) == Watch({}, true, None, true);
    WatchExtends(es, 2);
    assert Watched(es[..3]) == Watch({"a"}, false, Some("a"), true);
    WatchExtends(es, 3);
    assert Watched(es[..4]) == Watch({"a", "b"}, false, Some("a"), true);
    WatchExtends(es, 4);
    assert !Watched(es[..5]).ok;
    WatchExtends(es, 5);
    WatchExtends(es, 6);
    assert es[..7] == es;
  }

  const NewTurn := Turn([], [], 0, 0, {}, {})

  lemma ConcludedFits(c: Reducer.Context, s: State)
    requires Ready(c) && Concluded(s)
    ensures Fits(c, s, NewTurn)
  {
  }

  /**
    The run completes and yields an answer, and a history that hands this answer back is refused: the signature was
    made for the first call, and the second is the one whose block follows.
   */
  lemma CrossedCallsAreNotHandedBack(c: Reducer.Context, usage: Usage, names: set<string>, size: Response -> nat)
    requires Ready(c) && c.signer.Lawful() && Built(c.toolNames, names)
    requires forall r: Response :: size(r) <= MAX_NONSTREAM_BYTES
    ensures
      var es := CrossedCalls(usage);
      && RunAll(c, es).Ok? && RunAll(c, es).value.state.completed
      && !ClosersOpenNext(es) && !ClosersFollow(RunAll(c, es).value.state)
      && NonstreamResponse(c, RunAll(c, es).value.state, size).Ok?
      && HistoryTranslation.TranslateMessage(
           c, NewTurn, Assistant, Replay(NonstreamResponse(c, RunAll(c, es).value.state, size).value.content)).Err?
  {
    var es := CrossedCalls(usage);
    ReachesTheEnd(c, es, usage);
    WatchesCrossing(es, usage);
    RunWatches(c, es);
    StreamAndAnswerAgree(c, es, size);
    ConcludedFits(c, RunAll(c, es).value.state);
    ReplayRestoresUpstream(c, es, names, size, NewTurn);
  }
}
