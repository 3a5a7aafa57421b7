/**
  Texts and reasoning through the reducer: an item begins where what was held has been sealed, each piece finds the
  state that all pieces before it would have left as one, and the completion finds the whole.
 */
module OrderlySteps {
  import opened Wrappers
  import opened Utf8
  import opened ProtocolErrors
  import opened MessageStream
  import opened Reducer
  import opened UpstreamAccount
  import opened OrderlyResponses

  // ---------- Between items ----------

  predicate Running(s: State) {
    s.created && s.started && !s.completed && !s.failed
  }

  /** The counters are the tally's. */
  predicate Counts(s: State, t: Tally) {
    && |s.tools| == t.calls && s.callIds.Keys == t.callIds
    && s.totalText == t.text && s.totalReasoning == t.thinking && s.stored == t.stored && s.estimated == t.estimated
    && Within(t).Some?
  }

  /** No block is open but that of the reasoning item whose ciphertext is held. */
  predicate Holds(s: State, held: Option<(string, string)>) {
    match held
    case None => s.pending.None? && s.active.None?
    case Some((id, encrypted)) =>
      && s.pending == Some(id) && s.active == Some(ReasoningKey(id))
      && id in s.reasoning && s.reasoning[id].encrypted == Some(encrypted) && ByteLen(encrypted) <= s.stored
  }

  ghost predicate Closed(s: State) {
    && (forall k | k in s.texts :: s.texts[k].closed)
    && (forall k | k in s.tools :: s.tools[k].closed)
    && (forall k | k in s.reasoning :: s.reasoning[k].closed || s.pending == Some(k))
  }

  /** Only items told of are known. */
  ghost predicate Knows(s: State, ids: set<string>) {
    && s.texts.Keys <= ids && s.reasoning.Keys <= ids && s.tools.Keys <= ids
    && (forall k | k in s.callIds :: s.callIds[k] in ids)
  }

  ghost predicate Rests(s: State, ids: set<string>, t: Tally) {
    Running(s) && Counts(s, t) && Holds(s, t.held) && Closed(s) && Knows(s, ids)
  }

  ghost predicate Between(s: State, ids: set<string>, t: Tally) {
    && Rests(s, ids, t) && |s.outputItems| == t.items <= 1024 && s.outputItems.Keys <= ids
    && (s.blockOrder == [] <==> ids == {})
  }

  predicate SameItems(s: State, s': State) {
    && s'.texts == s.texts && s'.tools == s.tools && s'.callIds == s.callIds && s'.reasoning.Keys == s.reasoning.Keys
    && s'.outputItems == s.outputItems && s'.blockOrder == s.blockOrder && s'.nextIndex == s.nextIndex
  }

  /** What is held is sealed as the tally settles it. */
  lemma Settles(c: Context, s: State, ids: set<string>, t: Tally, closer: Option<string>)
    requires Rests(s, ids, t)
    ensures
      var closed := ClosePendingReasoning(c, s, closer);
      && (closed.Ok? <==> Settled(c, t, closer).Some?)
      && (closed.Ok? ==>
        && Rests(closed.value.state, ids, Settled(c, t, closer).value)
        && closed.value.state.active.None? && SameItems(s, closed.value.state))
  {
    if t.held.Some? {
      var (id, encrypted) := t.held.value;
      SettlesHeld(c, s, ids, t, closer, id, encrypted);
    }
  }

  lemma SettlesHeld(
      c: Context, s: State, ids: set<string>, t: Tally, closer: Option<string>, id: string, encrypted: string)
    requires Rests(s, ids, t) && t.held == Some((id, encrypted))
    ensures
      var closed := ClosePendingReasoning(c, s, closer);
      && (closed.Ok? <==> Settled(c, t, closer).Some?)
      && (closed.Ok? ==>
        && Rests(closed.value.state, ids, Settled(c, t, closer).value)
        && closed.value.state.active.None? && SameItems(s, closed.value.state))
  {
    var seal := c.signer.Seal(c.authEpoch, c.accountHash, id, closer, encrypted);
    if seal.Ok? {
      var signature := seal.value;
      Seals(c, s, closer, id, encrypted, signature);
      SettledIs(c, t, closer, id, encrypted, signature);
      PaysHeld(s, ByteLen(encrypted), ByteLen(signature), EscapedJsonLen(signature));
      SealedRests(s, ids, t, id, encrypted, ByteLen(signature), EscapedJsonLen(signature),
                  s.reasoning[id].(encrypted := None, signature := Some(signature), closed := true), Seal(closer, encrypted));
    }
  }

  lemma SettledIs(c: Context, t: Tally, closer: Option<string>, id: string, encrypted: string, signature: string)
    requires t.held == Some((id, encrypted))
    requires c.signer.Seal(c.authEpoch, c.accountHash, id, closer, encrypted) == Ok(signature)
    ensures
      Settled(c, t, closer)
      == Within(Resealed(t, ByteLen(encrypted), ByteLen(signature), EscapedJsonLen(signature)))
  {
  }

  lemma PaysHeld(s: State, held: nat, amount: nat, json: nat)
    requires held <= s.stored
    ensures
      ReservePayload(ReleaseStored(s, held), amount, json)
      == if s.stored - held + amount > MAX_NONSTREAM_BYTES then Err(TooLarge("response aggregate is too large"))
         else if s.estimated + json > MAX_NONSTREAM_BYTES then Err(TooLarge("nonstream response is too large"))
         else Ok(s.(stored := s.stored - held + amount, estimated := s.estimated + json))
  {
  }

  lemma Seals(c: Context, s: State, closer: Option<string>, id: string, encrypted: string, signature: string)
    requires Holds(s, Some((id, encrypted)))
    requires c.signer.Seal(c.authEpoch, c.accountHash, id, closer, encrypted) == Ok(signature)
    ensures
      var paid := ReservePayload(ReleaseStored(s, ByteLen(encrypted)), ByteLen(signature), EscapedJsonLen(signature));
      && (ClosePendingReasoning(c, s, closer).Ok? <==> paid.Ok?)
      && (paid.Ok? ==>
            ClosePendingReasoning(c, s, closer).value.state
            == Sealed(paid.value, id, s.reasoning[id].(encrypted := None, signature := Some(signature), closed := true),
                      Seal(closer, encrypted)))
  {
  }

  lemma SealedRests(
      s: State, ids: set<string>, t: Tally, id: string, encrypted: string, amount: nat, json: nat,
      r: ReasoningState, seal: Seal)
    requires Rests(s, ids, t) && t.held == Some((id, encrypted)) && r.closed
    ensures
      var t' := Resealed(t, ByteLen(encrypted), amount, json);
      && (Within(t').Some? <==> s.stored - ByteLen(encrypted) + amount <= MAX_NONSTREAM_BYTES
                                && s.estimated + json <= MAX_NONSTREAM_BYTES)
      && (Within(t').Some? ==>
            var s' := Sealed(s.(stored := s.stored - ByteLen(encrypted) + amount, estimated := s.estimated + json), id, r, seal);
            Within(t') == Some(t') && Rests(s', ids, t') && s'.active.None? && SameItems(s, s'))
  {
  }

  lemma Pays(s: State, amount: nat, json: nat)
    ensures
      ReservePayload(s, amount, json)
      == if s.stored + amount > MAX_NONSTREAM_BYTES then Err(TooLarge("response aggregate is too large"))
         else if s.estimated + json > MAX_NONSTREAM_BYTES then Err(TooLarge("nonstream response is too large"))
         else Ok(s.(stored := s.stored + amount, estimated := s.estimated + json))
  {
  }

  // ---------- Announcing ----------

  lemma KindIsShort(t: Told)
    ensures KindOf(t) != "" && ByteLen(KindOf(t)) <= MAX_KIND_BYTES
  {
    ShortBytes(KindOf(t));
  }

  /** A new item is claimed if its id is in order and there is room for it. */
  lemma Claims(s: State, t: Told)
    requires t.id !in s.outputItems && |s.outputItems| <= 1024
    ensures
      NoteOutputItem(s, Announced(t)).Ok? <==> Named(t.id) && |s.outputItems| < 1024
    ensures
      NoteOutputItem(s, Announced(t)).Ok? ==>
        NoteOutputItem(s, Announced(t)).value == s.(outputItems := s.outputItems[t.id := KindOf(t)])
    ensures |s.outputItems[t.id := KindOf(t)]| == |s.outputItems| + 1
  {
    KindIsShort(t);
    assert s.outputItems[t.id := KindOf(t)].Keys == s.outputItems.Keys + {t.id};
  }

  predicate Claimed(s: State, t: Told) {
    Named(t.id) && t.id in s.outputItems && s.outputItems[t.id] == KindOf(t) && |s.outputItems| <= 1024
  }

  lemma ClaimsAgain(s: State, id: string, kind: string)
    requires Named(id) && id in s.outputItems && s.outputItems[id] == kind && |s.outputItems| <= 1024
    ensures ClaimOutputItem(s, id, kind) == Ok(s)
  {
  }

  lemma NotesAgain(s: State, t: Told, silent: bool)
    requires Claimed(s, t)
    ensures NoteOutputItem(s, Done(t, silent)) == Ok(s)
  {
    KindIsShort(t);
    DoneIs(t, silent, KindOf(t));
    ClaimsAgain(s, t.id, KindOf(t));
    Notes(s, Done(t, silent), t.id, KindOf(t));
  }

  lemma Notes(s: State, item: Item, id: string, kind: string)
    requires item.id == Some(id) && item.kind == Some(kind) && kind != "" && ByteLen(kind) <= MAX_KIND_BYTES
    ensures NoteOutputItem(s, item) == ClaimOutputItem(s, id, kind)
  {
  }

  lemma DoneIs(t: Told, silent: bool, kind: string)
    requires kind == KindOf(t)
    ensures Done(t, silent).id == Some(t.id) && Done(t, silent).kind == Some(kind)
  {
  }

  lemma IdRequired(id: string, detail: string)
    requires Named(id)
    ensures RequiredId(Some(id), detail) == Ok(id)
  {
  }

  // ---------- Texts ----------

  predicate TextRoom(b: State, id: string, text: string) {
    && b.totalText + ByteLen(text) <= MAX_TEXT_BYTES
    && b.stored + ByteLen(id) + TEXT_OVERHEAD + ByteLen(text) <= MAX_NONSTREAM_BYTES
    && b.estimated + EscapedJsonLen(id) + TEXT_OVERHEAD + EscapedJsonLen(text) <= MAX_NONSTREAM_BYTES
  }

  function TextAt(b: State, id: string, text: string, closed: bool): State {
    b.(nextIndex := b.nextIndex + 1,
       texts := b.texts[id := TextState(b.nextIndex, text, closed)],
       blockOrder := b.blockOrder + [TextKey(id)],
       active := if closed then None else Some(TextKey(id)),
       totalText := b.totalText + ByteLen(text),
       stored := b.stored + ByteLen(id) + TEXT_OVERHEAD + ByteLen(text),
       estimated := b.estimated + EscapedJsonLen(id) + TEXT_OVERHEAD + EscapedJsonLen(text))
  }

  lemma ReservesText(s: State, text: string, amount: nat, json: nat)
    requires amount == ByteLen(text) && json == EscapedJsonLen(text)
    ensures
      ReserveText(s, text)
      == if s.totalText + amount > MAX_TEXT_BYTES then Err(TooLarge("text is too large"))
         else if s.stored + amount > MAX_NONSTREAM_BYTES then Err(TooLarge("response aggregate is too large"))
         else if s.estimated + json > MAX_NONSTREAM_BYTES then Err(TooLarge("nonstream response is too large"))
         else Ok(s.(totalText := s.totalText + amount, stored := s.stored + amount, estimated := s.estimated + json))
  {
    Pays(s.(totalText := s.totalText + amount), amount, json);
  }

  lemma PushesOn(s: State, id: string, delta: string)
    requires s.active == Some(TextKey(id)) && id in s.texts && !s.texts[id].closed
    ensures PushText(s, id, delta).Ok? <==> ReserveText(s, delta).Ok?
    ensures PushText(s, id, delta).Ok? ==>
      PushText(s, id, delta).value.state
      == ReserveText(s, delta).value.(texts := s.texts[id := s.texts[id].(text := s.texts[id].text + delta)])
  {
  }

  lemma PushesText(b: State, id: string, text: string, delta: string)
    requires TextRoom(b, id, text)
    ensures PushText(TextAt(b, id, text, false), id, delta).Ok? <==> TextRoom(b, id, text + delta)
    ensures PushText(TextAt(b, id, text, false), id, delta).Ok? ==>
      PushText(TextAt(b, id, text, false), id, delta).value.state == TextAt(b, id, text + delta, false)
  {
    var s := TextAt(b, id, text, false);
    ByteLenConcat(text, delta);
    EscapedJsonLenConcat(text, delta);
    ReservesText(s, delta, ByteLen(delta), EscapedJsonLen(delta));
    PushesOn(s, id, delta);
    assert s.texts[id := TextState(b.nextIndex, text + delta, false)]
        == b.texts[id := TextState(b.nextIndex, text + delta, false)];
  }

  lemma OpensText(b: State, id: string, amount: nat, json: nat)
    requires b.active.None? && amount == ByteLen(id) + TEXT_OVERHEAD && json == EscapedJsonLen(id) + TEXT_OVERHEAD
    ensures
      OpenText(b, id)
      == if b.stored + amount > MAX_NONSTREAM_BYTES then Err(TooLarge("response aggregate is too large"))
         else if b.estimated + json > MAX_NONSTREAM_BYTES then Err(TooLarge("nonstream response is too large"))
         else Ok(Emission(TextAt(b, id, "", false), [BlockStart(b.nextIndex, TextHead(""))]))
  {
    Pays(b, amount, json);
    ReservesIdentity(b, id, TEXT_OVERHEAD);
    StartsText(b, id, amount, json);
  }

  lemma ReservesIdentity(s: State, value: string, overhead: nat)
    ensures
      ReserveIdentity(s, value, overhead)
      == ReservePayload(s, ByteLen(value) + overhead, EscapedJsonLen(value) + overhead)
  {
  }

  lemma StartsText(b: State, id: string, amount: nat, json: nat)
    requires amount == ByteLen(id) + TEXT_OVERHEAD && json == EscapedJsonLen(id) + TEXT_OVERHEAD
    ensures StartText(b.(stored := b.stored + amount, estimated := b.estimated + json), id) == TextAt(b, id, "", false)
  {
  }

  /** The first piece of a text opens its block, after what was held is sealed. */
  lemma BeginsText(c: Context, s: State, b: State, id: string, delta: string)
    requires id !in b.texts && b.active.None? && b.totalText <= MAX_TEXT_BYTES
    requires ClosePendingReasoning(c, s, None).Ok? && ClosePendingReasoning(c, s, None).value.state == b
    ensures AppendText(c, s, id, delta).Ok? <==> TextRoom(b, id, delta)
    ensures AppendText(c, s, id, delta).Ok? ==> AppendText(c, s, id, delta).value.state == TextAt(b, id, delta, false)
  {
    OpensText(b, id, ByteLen(id) + TEXT_OVERHEAD, EscapedJsonLen(id) + TEXT_OVERHEAD);
    if OpenText(b, id).Ok? {
      assert "" + delta == delta;
      PushesText(b, id, "", delta);
    }
  }

  lemma GoesOnText(c: Context, b: State, id: string, text: string, delta: string)
    requires TextRoom(b, id, text) && b.pending.None?
    ensures AppendText(c, TextAt(b, id, text, false), id, delta).Ok? <==> TextRoom(b, id, text + delta)
    ensures AppendText(c, TextAt(b, id, text, false), id, delta).Ok? ==>
      AppendText(c, TextAt(b, id, text, false), id, delta).value.state == TextAt(b, id, text + delta, false)
  {
    PushesText(b, id, text, delta);
  }

  // ---------- Events ----------

  lemma NextText(c: Context, s: State, t: Told, piece: string)
    requires Running(s) && Claimed(s, t) && t.ToldText?
    ensures Next(c, s, Piece(t, piece)) == StateOf(AppendText(c, s, t.id, piece))
  {
    IdRequired(t.id, "upstream item id is invalid");
    ClaimsAgain(s, t.id, "message");
  }

  lemma AppliesDone(c: Context, s: State, e: UpstreamEvent)
    requires Running(s) && e.OutputItemDone? && e.item.Some?
    ensures Apply(c, s, e) == ApplyItemDone(c, s, e.item.value)
  {
  }

  lemma AppliesAdded(c: Context, s: State, e: UpstreamEvent)
    requires Running(s) && e.OutputItemAdded? && e.item.Some?
    ensures Apply(c, s, e) == ApplyItemAdded(c, s, e.item.value)
  {
  }

  function FinishOf(c: Context, s: State, item: Item): Outcome {
    if item.kind == Some("reasoning") then FinishReasoning(c, s, item)
    else if item.kind == Some("function_call") then FinishTool(c, s, item)
    else if item.kind == Some("message") then FinishMessageItem(c, s, item)
    else Ok(Emission(s, []))
  }

  lemma ItemDone(c: Context, s: State, item: Item, finished: Outcome)
    requires s.started && NoteOutputItem(s, item) == Ok(s) && finished == FinishOf(c, s, item)
    ensures StateOf(ApplyItemDone(c, s, item)) == StateOf(finished)
  {
  }

  lemma FinishIs(c: Context, s: State, t: Told, silent: bool, item: Item)
    requires item == Done(t, silent)
    ensures
      FinishOf(c, s, item)
      == match t
         case ToldText(_, _) => FinishMessageItem(c, s, item)
         case ToldReasoning(_, _, _) => FinishReasoning(c, s, item)
         case ToldTool(_, _, _, _) => FinishTool(c, s, item)
  {
  }

  lemma NextDoneItem(c: Context, s: State, item: Item, finished: Outcome)
    requires Running(s) && NoteOutputItem(s, item) == Ok(s) && finished == FinishOf(c, s, item)
    ensures Next(c, s, OutputItemDone(Some(item))) == StateOf(finished)
  {
    AppliesDone(c, s, OutputItemDone(Some(item)));
    ItemDone(c, s, item, finished);
  }

  lemma NextDone(c: Context, s: State, t: Told, silent: bool)
    requires Running(s) && Claimed(s, t)
    ensures
      Next(c, s, OutputItemDone(Some(Done(t, silent))))
      == match t
         case ToldText(_, _) => StateOf(FinishMessageItem(c, s, Done(t, silent)))
         case ToldReasoning(_, _, _) => StateOf(FinishReasoning(c, s, Done(t, silent)))
         case ToldTool(_, _, _, _) => StateOf(FinishTool(c, s, Done(t, silent)))
  {
    var item := Done(t, silent);
    NotesAgain(s, t, silent);
    FinishIs(c, s, t, silent, item);
    NextDoneItem(c, s, item, FinishOf(c, s, item));
  }

  /** The state after a new item is announced. */
  function Noted(s: State, t: Told): State {
    s.(outputItems := s.outputItems[t.id := KindOf(t)])
  }

  lemma AddedByKind(c: Context, s: State, item: Item)
    requires s.started
    ensures
      StateOf(ApplyItemAdded(c, s, item))
      == match NoteOutputItem(s, item)
         case Err(_) => None
         case Ok(noted) =>
           if item.kind == Some("function_call") then StateOf(RegisterTool(c, noted, item)) else Some(noted)
  {
  }

  lemma NextAdded(c: Context, s: State, t: Told)
    requires Running(s) && t.id !in s.outputItems && |s.outputItems| <= 1024
    ensures
      Next(c, s, OutputItemAdded(Some(Announced(t))))
      == if !Named(t.id) || |s.outputItems| >= 1024 then None
         else if t.ToldTool? then StateOf(RegisterTool(c, Noted(s, t), Announced(t)))
         else Some(Noted(s, t))
    ensures Named(t.id) && |s.outputItems| < 1024 ==> Claimed(Noted(s, t), t)
  {
    Claims(s, t);
    AppliesAdded(c, s, OutputItemAdded(Some(Announced(t))));
    AddedByKind(c, s, Announced(t));
  }

  // ---------- A text ----------

  /** Where what was held has been sealed, if it can be. */
  ghost predicate Ready(c: Context, s: State, b: Option<State>) {
    && b == StateOf(ClosePendingReasoning(c, s, None))
    && (b.Some? ==>
          && b.value.active.None? && b.value.pending.None? && SameItems(s, b.value) && Running(b.value)
          && b.value.totalText <= MAX_TEXT_BYTES && b.value.totalReasoning <= MAX_REASONING_BYTES)
  }

  function TextSent(b: Option<State>, id: string, text: string, closed: bool): Option<State> {
    if b.Some? && TextRoom(b.value, id, text) then Some(TextAt(b.value, id, text, closed)) else None
  }

  lemma FirstText(c: Context, s: State, b: Option<State>, id: string, text: string)
    requires Ready(c, s, b) && id !in s.texts
    ensures StateOf(AppendText(c, s, id, text)) == TextSent(b, id, text, false)
  {
    if b.Some? {
      BeginsText(c, s, b.value, id, text);
    }
  }

  lemma {:induction false} SendsText(c: Context, s: State, b: Option<State>, t: Told, pieces: seq<string>)
    requires t.ToldText? && Running(s) && Claimed(s, t) && t.id !in s.texts && pieces != [] && Ready(c, s, b)
    ensures After(c, s, Pieces(t, pieces)) == TextSent(b, t.id, Whole(pieces), false)
  {
    var front, last := pieces[..|pieces| - 1], pieces[|pieces| - 1];
    if front == [] {
      assert "" + last == last;
      FirstText(c, s, b, t.id, last);
      NextText(c, s, t, last);
    } else {
      SendsText(c, s, b, t, front);
      if b.Some? {
        RoomForLess(b.value, t.id, Whole(front), last);
        if TextRoom(b.value, t.id, Whole(front)) {
          GoesOnText(c, b.value, t.id, Whole(front), last);
          NextText(c, TextAt(b.value, t.id, Whole(front), false), t, last);
        }
      }
    }
    AfterSnoc(c, s, Pieces(t, front), Piece(t, last));
  }

  lemma AfterSnoc(c: Context, s: State, es: seq<UpstreamEvent>, e: UpstreamEvent)
    ensures After(c, s, es + [e]) == match After(c, s, es) case None => None case Some(m) => Next(c, m, e)
  {
    Sequences.Snoc(es, e);
  }

  lemma RoomForLess(b: State, id: string, text: string, more: string)
    ensures TextRoom(b, id, text + more) ==> TextRoom(b, id, text)
  {
    ByteLenConcat(text, more);
    EscapedJsonLenConcat(text, more);
  }

  lemma FinishesText(b: State, id: string, text: string)
    ensures FinishText(TextAt(b, id, text, false), id).Ok?
    ensures FinishText(TextAt(b, id, text, false), id).value.state == TextAt(b, id, text, true)
  {
    assert b.texts[id := TextState(b.nextIndex, text, false)][id := TextState(b.nextIndex, text, true)]
        == b.texts[id := TextState(b.nextIndex, text, true)];
  }

  lemma FinishesUnsent(c: Context, s: State, t: Told, silent: bool)
    requires t.ToldText? && Named(t.id) && !silent && t.id !in s.texts
    ensures
      StateOf(FinishMessageItem(c, s, Done(t, silent)))
      == match StateOf(AppendText(c, s, t.id, t.text)) case None => None case Some(m) => StateOf(FinishText(m, t.id))
  {
    IdRequired(t.id, "output item id is invalid");
  }

  lemma FinishesSent(c: Context, b: State, t: Told)
    requires t.ToldText? && Named(t.id)
    ensures StateOf(FinishMessageItem(c, TextAt(b, t.id, t.text, false), Done(t, false))) == Some(TextAt(b, t.id, t.text, true))
  {
    IdRequired(t.id, "output item id is invalid");
    FinishesText(b, t.id, t.text);
  }

  /** However it is cut up, a text is accepted if there is room for all of it. */
  lemma TextPasses(c: Context, s: State, b: Option<State>, x: Sent)
    requires Coherent(x) && x.told.ToldText? && Running(s) && Claimed(s, x.told) && x.told.id !in s.texts && Ready(c, s, b)
    ensures
      match After(c, s, Pieces(x.told, x.pieces))
      case None => TextSent(b, x.told.id, x.told.text, true) == None
      case Some(m) => Next(c, m, OutputItemDone(Some(Done(x.told, x.silent)))) == TextSent(b, x.told.id, x.told.text, true)
  {
    var t := x.told;
    if x.pieces == [] {
      NextDone(c, s, t, x.silent);
      FinishesUnsent(c, s, t, x.silent);
      FirstText(c, s, b, t.id, t.text);
      if TextSent(b, t.id, t.text, false).Some? {
        FinishesText(b.value, t.id, t.text);
      }
    } else {
      SendsText(c, s, b, t, x.pieces);
      if TextSent(b, t.id, t.text, false).Some? {
        NextDone(c, TextAt(b.value, t.id, t.text, false), t, x.silent);
        FinishesSent(c, b.value, t);
      }
    }
  }

  // ---------- Reasoning ----------

  predicate ThoughtRoom(b: State, id: string, text: string) {
    && b.totalReasoning + ByteLen(text) <= MAX_REASONING_BYTES
    && b.stored + ByteLen(id) + REASONING_OVERHEAD + ByteLen(text) <= MAX_NONSTREAM_BYTES
    && b.estimated + EscapedJsonLen(id) + REASONING_OVERHEAD + EscapedJsonLen(text) <= MAX_NONSTREAM_BYTES
  }

  function ThoughtAt(b: State, id: string, text: string): State {
    b.(nextIndex := b.nextIndex + 1,
       reasoning := b.reasoning[id := ReasoningState(b.nextIndex, text, None, None, false, false)],
       blockOrder := b.blockOrder + [ReasoningKey(id)],
       active := Some(ReasoningKey(id)),
       totalReasoning := b.totalReasoning + ByteLen(text),
       stored := b.stored + ByteLen(id) + REASONING_OVERHEAD + ByteLen(text),
       estimated := b.estimated + EscapedJsonLen(id) + REASONING_OVERHEAD + EscapedJsonLen(text))
  }

  /** And with its ciphertext held. */
  function ThoughtHeld(b: State, id: string, text: string, encrypted: string): State {
    var s := ThoughtAt(b, id, text);
    s.(reasoning := b.reasoning[id := ReasoningState(b.nextIndex, text, Some(encrypted), None, true, false)],
       pending := Some(id),
       totalReasoning := s.totalReasoning + ByteLen(encrypted),
       stored := s.stored + ByteLen(encrypted))
  }

  predicate CipherRoom(b: State, id: string, text: string, encrypted: string) {
    && ThoughtRoom(b, id, text)
    && b.totalReasoning + ByteLen(text) + ByteLen(encrypted) <= MAX_REASONING_BYTES
    && b.stored + ByteLen(id) + REASONING_OVERHEAD + ByteLen(text) + ByteLen(encrypted) <= MAX_NONSTREAM_BYTES
  }

  lemma ReservesThought(s: State, text: string, amount: nat, json: nat)
    requires amount == ByteLen(text) && json == EscapedJsonLen(text)
    ensures
      ReserveReasoning(s, text)
      == if s.totalReasoning + amount > MAX_REASONING_BYTES then Err(TooLarge("reasoning is too large"))
         else if s.stored + amount > MAX_NONSTREAM_BYTES then Err(TooLarge("response aggregate is too large"))
         else if s.estimated + json > MAX_NONSTREAM_BYTES then Err(TooLarge("nonstream response is too large"))
         else Ok(s.(totalReasoning := s.totalReasoning + amount, stored := s.stored + amount,
                    estimated := s.estimated + json))
  {
    Pays(s.(totalReasoning := s.totalReasoning + amount), amount, json);
  }

  lemma PushesMore(s: State, id: string, delta: string)
    requires s.active == Some(ReasoningKey(id)) && id in s.reasoning && !s.reasoning[id].done && !s.reasoning[id].closed
    ensures PushReasoning(s, id, delta).Ok? <==> ReserveReasoning(s, delta).Ok?
    ensures PushReasoning(s, id, delta).Ok? ==>
      PushReasoning(s, id, delta).value.state
      == ReserveReasoning(s, delta).value.(
           reasoning := s.reasoning[id := s.reasoning[id].(text := s.reasoning[id].text + delta)])
  {
  }

  lemma PushesThought(b: State, id: string, text: string, delta: string)
    requires ThoughtRoom(b, id, text)
    ensures PushReasoning(ThoughtAt(b, id, text), id, delta).Ok? <==> ThoughtRoom(b, id, text + delta)
    ensures PushReasoning(ThoughtAt(b, id, text), id, delta).Ok? ==>
      PushReasoning(ThoughtAt(b, id, text), id, delta).value.state == ThoughtAt(b, id, text + delta)
  {
    var s := ThoughtAt(b, id, text);
    ByteLenConcat(text, delta);
    EscapedJsonLenConcat(text, delta);
    ReservesThought(s, delta, ByteLen(delta), EscapedJsonLen(delta));
    PushesMore(s, id, delta);
    assert s.reasoning[id := ReasoningState(b.nextIndex, text + delta, None, None, false, false)]
        == b.reasoning[id := ReasoningState(b.nextIndex, text + delta, None, None, false, false)];
  }

  lemma OpensThought(b: State, id: string, amount: nat, json: nat)
    requires b.active.None? && amount == ByteLen(id) + REASONING_OVERHEAD && json == EscapedJsonLen(id) + REASONING_OVERHEAD
    ensures
      OpenReasoning(b, id)
      == if b.stored + amount > MAX_NONSTREAM_BYTES then Err(TooLarge("response aggregate is too large"))
         else if b.estimated + json > MAX_NONSTREAM_BYTES then Err(TooLarge("nonstream response is too large"))
         else Ok(Emission(ThoughtAt(b, id, ""), [BlockStart(b.nextIndex, ThinkingHead("", ""))]))
  {
    Pays(b, amount, json);
    ReservesIdentity(b, id, REASONING_OVERHEAD);
    StartsThought(b, id, amount, json);
  }

  lemma StartsThought(b: State, id: string, amount: nat, json: nat)
    requires amount == ByteLen(id) + REASONING_OVERHEAD && json == EscapedJsonLen(id) + REASONING_OVERHEAD
    ensures StartReasoning(b.(stored := b.stored + amount, estimated := b.estimated + json), id) == ThoughtAt(b, id, "")
  {
  }

  lemma BeginsThought(c: Context, s: State, b: State, id: string, delta: string)
    requires id !in b.reasoning && b.active.None? && b.totalReasoning <= MAX_REASONING_BYTES
    requires SealOther(c, s, id).Ok? && SealOther(c, s, id).value.state == b
    ensures AppendReasoning(c, s, id, delta).Ok? <==> ThoughtRoom(b, id, delta)
    ensures AppendReasoning(c, s, id, delta).Ok? ==> AppendReasoning(c, s, id, delta).value.state == ThoughtAt(b, id, delta)
  {
    OpensThought(b, id, ByteLen(id) + REASONING_OVERHEAD, EscapedJsonLen(id) + REASONING_OVERHEAD);
    if OpenReasoning(b, id).Ok? {
      assert "" + delta == delta;
      PushesThought(b, id, "", delta);
    }
  }

  lemma GoesOnThought(c: Context, b: State, id: string, text: string, delta: string)
    requires ThoughtRoom(b, id, text) && b.pending.None?
    ensures AppendReasoning(c, ThoughtAt(b, id, text), id, delta).Ok? <==> ThoughtRoom(b, id, text + delta)
    ensures AppendReasoning(c, ThoughtAt(b, id, text), id, delta).Ok? ==>
      AppendReasoning(c, ThoughtAt(b, id, text), id, delta).value.state == ThoughtAt(b, id, text + delta)
  {
    PushesThought(b, id, text, delta);
  }

  function ThoughtSent(b: Option<State>, id: string, text: string): Option<State> {
    if b.Some? && ThoughtRoom(b.value, id, text) then Some(ThoughtAt(b.value, id, text)) else None
  }

  lemma FirstThought(c: Context, s: State, b: Option<State>, id: string, text: string)
    requires Ready(c, s, b) && id !in s.reasoning && s.pending != Some(id)
    ensures StateOf(AppendReasoning(c, s, id, text)) == ThoughtSent(b, id, text)
  {
    assert SealOther(c, s, id) == ClosePendingReasoning(c, s, None);
    if b.Some? {
      BeginsThought(c, s, b.value, id, text);
    }
  }

  lemma NextThought(c: Context, s: State, t: Told, piece: string)
    requires Running(s) && Claimed(s, t) && t.ToldReasoning?
    ensures Next(c, s, Piece(t, piece)) == StateOf(AppendReasoning(c, s, t.id, piece))
  {
    IdRequired(t.id, "upstream item id is invalid");
    ClaimsAgain(s, t.id, "reasoning");
  }

  lemma ThoughtRoomForLess(b: State, id: string, text: string, more: string)
    ensures ThoughtRoom(b, id, text + more) ==> ThoughtRoom(b, id, text)
  {
    ByteLenConcat(text, more);
    EscapedJsonLenConcat(text, more);
  }

  lemma {:induction false} SendsThought(c: Context, s: State, b: Option<State>, t: Told, pieces: seq<string>)
    requires t.ToldReasoning? && Running(s) && Claimed(s, t) && t.id !in s.reasoning && s.pending != Some(t.id)
    requires pieces != [] && Ready(c, s, b)
    ensures After(c, s, Pieces(t, pieces)) == ThoughtSent(b, t.id, Whole(pieces))
  {
    var front, last := pieces[..|pieces| - 1], pieces[|pieces| - 1];
    if front == [] {
      assert "" + last == last;
      FirstThought(c, s, b, t.id, last);
      NextThought(c, s, t, last);
    } else {
      SendsThought(c, s, b, t, front);
      if b.Some? {
        ThoughtRoomForLess(b.value, t.id, Whole(front), last);
        if ThoughtRoom(b.value, t.id, Whole(front)) {
          GoesOnThought(c, b.value, t.id, Whole(front), last);
          NextThought(c, ThoughtAt(b.value, t.id, Whole(front)), t, last);
        }
      }
    }
    AfterSnoc(c, s, Pieces(t, front), Piece(t, last));
  }

  lemma ReservesCipher(s: State, encrypted: string, amount: nat)
    requires amount == ByteLen(encrypted)
    ensures
      ReserveOpaque(s, encrypted)
      == if s.totalReasoning + amount > MAX_REASONING_BYTES then Err(TooLarge("reasoning is too large"))
         else if s.stored + amount > MAX_NONSTREAM_BYTES then Err(TooLarge("response aggregate is too large"))
         else Ok(s.(totalReasoning := s.totalReasoning + amount, stored := s.stored + amount))
  {
  }

  lemma HoldsCipher(b: State, id: string, text: string, encrypted: string)
    requires ThoughtRoom(b, id, text)
    ensures HoldCiphertext(ThoughtAt(b, id, text), id, encrypted).Ok? <==> CipherRoom(b, id, text, encrypted)
    ensures HoldCiphertext(ThoughtAt(b, id, text), id, encrypted).Ok? ==>
      HoldCiphertext(ThoughtAt(b, id, text), id, encrypted).value == ThoughtHeld(b, id, text, encrypted)
  {
    var s := ThoughtAt(b, id, text);
    ReservesCipher(s, encrypted, ByteLen(encrypted));
    assert s.reasoning[id := ReasoningState(b.nextIndex, text, Some(encrypted), None, true, false)]
        == b.reasoning[id := ReasoningState(b.nextIndex, text, Some(encrypted), None, true, false)];
  }

  function Hold(s: Option<State>, id: string, encrypted: string): Option<State> {
    if s.None? || HoldCiphertext(s.value, id, encrypted).Err? then None
    else Some(HoldCiphertext(s.value, id, encrypted).value)
  }

  function ThoughtTold(b: Option<State>, id: string, text: string, encrypted: string): Option<State> {
    if b.Some? && CipherRoom(b.value, id, text, encrypted) then Some(ThoughtHeld(b.value, id, text, encrypted)) else None
  }

  lemma HoldsSent(b: Option<State>, id: string, text: string, encrypted: string)
    ensures Hold(ThoughtSent(b, id, text), id, encrypted) == ThoughtTold(b, id, text, encrypted)
  {
    if ThoughtSent(b, id, text).Some? {
      HoldsCipher(b.value, id, text, encrypted);
    }
  }

  lemma ThinksUnsent(c: Context, s: State, t: Told, silent: bool)
    requires t.ToldReasoning? && Named(t.id) && (silent ==> t.text == "") && t.id !in s.reasoning
    ensures
      StateOf(FinishReasoning(c, s, Done(t, silent)))
      == Hold(StateOf(AppendReasoning(c, s, t.id, t.text)), t.id, t.encrypted)
  {
    IdRequired(t.id, "output item id is invalid");
  }

  lemma ThinksSent(c: Context, s: State, t: Told, silent: bool)
    requires t.ToldReasoning? && Named(t.id) && t.id in s.reasoning && s.reasoning[t.id].text == t.text
    ensures StateOf(FinishReasoning(c, s, Done(t, silent))) == Hold(Some(s), t.id, t.encrypted)
  {
    IdRequired(t.id, "output item id is invalid");
  }

  /** However it is cut up, reasoning is accepted if there is room for its text and its ciphertext. */
  lemma ThoughtPasses(c: Context, s: State, b: Option<State>, x: Sent)
    requires Coherent(x) && x.told.ToldReasoning? && Running(s) && Claimed(s, x.told)
    requires x.told.id !in s.reasoning && s.pending != Some(x.told.id) && Ready(c, s, b)
    ensures
      match After(c, s, Pieces(x.told, x.pieces))
      case None => ThoughtTold(b, x.told.id, x.told.text, x.told.encrypted) == None
      case Some(m) =>
        Next(c, m, OutputItemDone(Some(Done(x.told, x.silent)))) == ThoughtTold(b, x.told.id, x.told.text, x.told.encrypted)
  {
    var t := x.told;
    HoldsSent(b, t.id, t.text, t.encrypted);
    if x.pieces == [] {
      NextDone(c, s, t, x.silent);
      ThinksUnsent(c, s, t, x.silent);
      FirstThought(c, s, b, t.id, t.text);
    } else {
      SendsThought(c, s, b, t, x.pieces);
      if ThoughtSent(b, t.id, t.text).Some? {
        NextDone(c, ThoughtAt(b.value, t.id, t.text), t, x.silent);
        ThinksSent(c, ThoughtAt(b.value, t.id, t.text), t, x.silent);
      }
    }
  }
}
