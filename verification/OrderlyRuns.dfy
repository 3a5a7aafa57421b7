/**
  Which orderly responses the reducer accepts. Between items its state is known by a tally: the counters are the
  tally's, no block is open but that of a reasoning item whose ciphertext waits to be sealed, all else is closed, and
  only the ids told of are known. Each item is accepted exactly if it weighs in, whatever its pieces, and leaves the
  state known by the next tally; so a response is accepted exactly if its items fit one after the other.
 */
module OrderlyRuns {
  import opened Wrappers
  import opened Utf8
  import opened Reducer
  import opened UpstreamAccount
  import opened OrderlyResponses
  import opened OrderlySteps
  import opened OrderlyCalls

  // ---------- Item by item ----------

  lemma TextRests(b: State, ids: set<string>, t: Tally, id: string, text: string)
    requires Rests(b, ids, t) && b.active.None? && id !in ids
    ensures TextRoom(b, id, text) <==> PlusText(t, id, text).Some?
    ensures TextRoom(b, id, text) ==> Rests(TextAt(b, id, text, true), ids + {id}, PlusText(t, id, text).value)
  {
  }

  lemma ThoughtRests(b: State, ids: set<string>, t: Tally, id: string, text: string, encrypted: string)
    requires Rests(b, ids, t) && b.active.None? && id !in ids
    ensures CipherRoom(b, id, text, encrypted) <==> PlusReasoning(t, id, text, encrypted).Some?
    ensures CipherRoom(b, id, text, encrypted) ==>
      Rests(ThoughtHeld(b, id, text, encrypted), ids + {id}, PlusReasoning(t, id, text, encrypted).value)
  {
  }

  lemma CallCounts(
      b: State, t: Tally, id: string, callId: string, name: string, arguments: nat, b': State, t': Tally)
    requires Counts(b, t) && callId !in t.callIds && |b'.tools| == |b.tools| + 1 && b'.callIds.Keys == b.callIds.Keys + {callId}
    requires b' == Charged(b, id, callId, name, arguments).(
      nextIndex := b'.nextIndex, callIds := b'.callIds, tools := b'.tools, blockOrder := b'.blockOrder, active := b'.active)
    requires t' == t.(
      items := t'.items, calls := t.calls + 1, callIds := t.callIds + {callId},
      stored := t.stored + ByteLen(id) + 192 + ByteLen(callId) + ByteLen(name) + arguments,
      estimated := t.estimated + EscapedJsonLen(id) + 192 + EscapedJsonLen(callId) + EscapedJsonLen(name) + arguments)
    ensures CallRoom(b, id, callId, name, arguments) <==> Within(t').Some?
    ensures Within(t').Some? ==> Within(t') == Some(t') && Counts(b', t')
  {
  }

  lemma OneMore<V>(m: map<string, V>, k: string, v: V)
    requires k !in m
    ensures |m[k := v]| == |m| + 1 && m[k := v].Keys == m.Keys + {k}
  {
    assert m[k := v].Keys == m.Keys + {k};
  }

  lemma CallTables(b: State, s: State, ids: set<string>, id: string, callId: string, t: ToolState)
    requires Closed(b) && Knows(b, ids) && t.closed
    requires s.tools == b.tools[id := t] && s.callIds == b.callIds[callId := id]
    requires s.texts == b.texts && s.reasoning == b.reasoning && s.pending == b.pending
    ensures Closed(s) && Knows(s, ids + {id})
  {
    assert s.tools.Keys == b.tools.Keys + {id};
  }

  lemma CallIs(b: State, id: string, callId: string, name: string, arguments: string, s: State, t: ToolState)
    requires s == CallAt(b, id, callId, name, arguments, true) && t == ToolState(Some(b.nextIndex), callId, name, arguments, true)
    ensures s.tools == b.tools[id := t] && s.callIds == b.callIds[callId := id] && s.active.None?
    ensures s == Charged(b, id, callId, name, ByteLen(arguments)).(
      nextIndex := s.nextIndex, callIds := s.callIds, tools := s.tools, blockOrder := s.blockOrder, active := s.active)
  {
  }

  lemma RestsAfterCall(
      b: State, ids: set<string>, t: Tally, id: string, callId: string, name: string, arguments: nat,
      s: State, call: ToolState, t': Tally)
    requires Running(b) && Counts(b, t) && t.held.None? && b.pending.None? && Closed(b) && Knows(b, ids)
    requires id !in ids && callId !in t.callIds && call.closed
    requires s.tools == b.tools[id := call] && s.callIds == b.callIds[callId := id] && s.active.None?
    requires s == Charged(b, id, callId, name, arguments).(
      nextIndex := s.nextIndex, callIds := s.callIds, tools := s.tools, blockOrder := s.blockOrder, active := s.active)
    requires t' == CallTally(t, id, callId, name, arguments)
    ensures CallRoom(b, id, callId, name, arguments) <==> Within(t').Some?
    ensures Within(t').Some? ==> Within(t') == Some(t') && Rests(s, ids + {id}, t')
  {
    CallLeaves(b, id, callId, name, arguments, s);
    CallTables(b, s, ids, id, callId, call);
    OneMore(b.tools, id, call);
    OneMore(b.callIds, callId, id);
    CallCounts(b, t, id, callId, name, arguments, s, t');
  }

  lemma CallLeaves(b: State, id: string, callId: string, name: string, arguments: nat, s: State)
    requires s == Charged(b, id, callId, name, arguments).(
      nextIndex := s.nextIndex, callIds := s.callIds, tools := s.tools, blockOrder := s.blockOrder, active := s.active)
    ensures s.texts == b.texts && s.reasoning == b.reasoning && s.pending == b.pending && (Running(s) <==> Running(b))
  {
  }

  lemma CallRests(c: Context, b: State, ids: set<string>, t: Tally, told: Told, name: string)
    requires Rests(b, ids, t) && b.active.None? && told.ToldTool? && told.id !in ids
    requires name == c.toolNames.AnthropicName(told.name) && told.callId !in t.callIds
    ensures
      CallRoom(b, told.id, told.callId, name, ByteLen(FinalArguments(told.arguments)))
      <==> PlusCall(c, t, told.id, told.callId, told.name, told.arguments).Some?
    ensures
      var final := FinalArguments(told.arguments);
      CallRoom(b, told.id, told.callId, name, ByteLen(final)) ==>
        Rests(CallAt(b, told.id, told.callId, name, final, true), ids + {told.id},
              PlusCall(c, t, told.id, told.callId, told.name, told.arguments).value)
  {
    var final := FinalArguments(told.arguments);
    var s, call := CallAt(b, told.id, told.callId, name, final, true), ToolState(Some(b.nextIndex), told.callId, name, final, true);
    CallIs(b, told.id, told.callId, name, final, s, call);
    RestsAfterCall(b, ids, t, told.id, told.callId, name, ByteLen(final), s, call,
                   CallTally(t, told.id, told.callId, name, ByteLen(final)));
  }

  lemma NotedRests(s: State, ids: set<string>, t: Tally, told: Told)
    requires Between(s, ids, t) && told.id !in ids
    ensures Rests(Noted(s, told), ids, t) && told.id !in s.outputItems
    ensures |Noted(s, told).outputItems| == t.items + 1 && Noted(s, told).outputItems.Keys <= ids + {told.id}
  {
    OneMore(s.outputItems, told.id, KindOf(told));
  }

  lemma SettledKeeps(c: Context, t: Tally, closer: Option<string>)
    requires Settled(c, t, closer).Some?
    ensures
      var b := Settled(c, t, closer).value;
      b.items == t.items && b.calls == t.calls && b.callIds == t.callIds && b.held.None?
  {
  }

  /** What follows an announcement. */
  function Follows(c: Context, s: State, x: Sent): Option<State> {
    match After(c, s, Pieces(x.told, x.pieces))
    case None => None
    case Some(m) => Next(c, m, OutputItemDone(Some(Done(x.told, x.silent))))
  }

  lemma ItemFollows(c: Context, s: State, ids: set<string>, t: Tally, x: Sent)
    requires Between(s, ids, t) && x.told.id !in ids
    ensures
      After(c, s, EventsOf(x))
      == if !Named(x.told.id) || t.items >= 1024 then None
         else if !x.told.ToldTool? then Follows(c, Noted(s, x.told), x)
         else
           match StateOf(RegisterTool(c, Noted(s, x.told), Announced(x.told)))
           case None => None
           case Some(m) => Follows(c, m, x)
    ensures Named(x.told.id) && t.items < 1024 ==> Claimed(Noted(s, x.told), x.told)
  {
    NotedRests(s, ids, t, x.told);
    AfterItem(c, s, x);
    NextAdded(c, s, x.told);
  }

  lemma ThenBetween(s: State, b: State, s': State, ids: set<string>, id: string, t: Tally)
    requires Rests(s', ids + {id}, t) && s'.outputItems == b.outputItems && s'.blockOrder != []
    requires b.outputItems == s.outputItems && |s.outputItems| == t.items <= 1024 && s.outputItems.Keys <= ids + {id}
    ensures Between(s', ids + {id}, t)
  {
    assert id in ids + {id};
  }

  /** Where what was held is sealed for the next item, as the tally says. */
  ghost predicate SealedAs(s: State, ids: set<string>, b: Option<State>, t: Option<Tally>) {
    && (b.Some? <==> t.Some?)
    && (b.Some? ==> Rests(b.value, ids, t.value) && b.value.active.None? && SameItems(s, b.value))
  }

  function PlusItem(c: Context, b: Option<Tally>, x: Told): Option<Tally> {
    match b
    case None => None
    case Some(b) =>
      match x
      case ToldText(id, text) => PlusText(b, id, text)
      case ToldReasoning(id, text, encrypted) => PlusReasoning(b, id, text, encrypted)
      case ToldTool(id, callId, name, arguments) => PlusCall(c, b, id, callId, name, arguments)
  }

  lemma WeighedIs(c: Context, t: Tally, x: Told)
    ensures
      Weighed(c, t, x)
      == if Named(x.id) && t.items < 1024 && (x.ToldTool? ==> Callable(c, t, x.callId, x.name, x.arguments))
         then PlusItem(c, Settled(c, t, if x.ToldTool? then Some(x.callId) else None), x) else None
  {
  }

  /** What a new item leads to, against what it weighs. */
  ghost predicate Agrees(after: Option<State>, ids: set<string>, t: Option<Tally>) {
    (after.Some? <==> t.Some?) && (after.Some? ==> Between(after.value, ids, t.value))
  }

  lemma TextAgrees(c: Context, s: State, ids: set<string>, b: Option<State>, t: Option<Tally>, items: nat, x: Told)
    requires x.ToldText? && SealedAs(s, ids, b, t) && x.id !in ids
    requires |s.outputItems| == items + 1 <= 1024 && s.outputItems.Keys <= ids + {x.id} && (t.Some? ==> t.value.items == items)
    ensures Agrees(TextSent(b, x.id, x.text, true), ids + {x.id}, PlusItem(c, t, x))
  {
    if b.Some? {
      TextRests(b.value, ids, t.value, x.id, x.text);
      if TextRoom(b.value, x.id, x.text) {
        ThenBetween(s, b.value, TextAt(b.value, x.id, x.text, true), ids, x.id, PlusText(t.value, x.id, x.text).value);
      }
    }
  }

  lemma ThoughtAgrees(c: Context, s: State, ids: set<string>, b: Option<State>, t: Option<Tally>, items: nat, x: Told)
    requires x.ToldReasoning? && SealedAs(s, ids, b, t) && x.id !in ids
    requires |s.outputItems| == items + 1 <= 1024 && s.outputItems.Keys <= ids + {x.id} && (t.Some? ==> t.value.items == items)
    ensures Agrees(ThoughtTold(b, x.id, x.text, x.encrypted), ids + {x.id}, PlusItem(c, t, x))
  {
    if b.Some? {
      ThoughtRests(b.value, ids, t.value, x.id, x.text, x.encrypted);
      if CipherRoom(b.value, x.id, x.text, x.encrypted) {
        ThenBetween(s, b.value, ThoughtHeld(b.value, x.id, x.text, x.encrypted), ids, x.id,
                    PlusReasoning(t.value, x.id, x.text, x.encrypted).value);
      }
    }
  }

  lemma ReadyToBegin(c: Context, s: State, ids: set<string>, t: Tally, closer: Option<string>)
    requires Rests(s, ids, t)
    ensures
      var b := StateOf(ClosePendingReasoning(c, s, closer));
      SealedAs(s, ids, b, Settled(c, t, closer)) && (closer.None? ==> Ready(c, s, b))
  {
    Settles(c, s, ids, t, closer);
    if Settled(c, t, closer).Some? {
      SettledKeeps(c, t, closer);
    }
  }

  lemma KnownNot(s: State, ids: set<string>, t: Tally, id: string)
    requires Rests(s, ids, t) && id !in ids
    ensures id !in s.texts && id !in s.reasoning && id !in s.tools && s.pending != Some(id)
    ensures forall k | k in s.callIds :: s.callIds[k] != id
  {
  }

  lemma TextAsWeighed(c: Context, s: State, ids: set<string>, t: Tally, x: Sent)
    requires Rests(s, ids, t) && Coherent(x) && x.told.id !in ids && x.told.ToldText? && Claimed(s, x.told)
    requires |s.outputItems| == t.items + 1 && s.outputItems.Keys <= ids + {x.told.id}
    ensures Agrees(Follows(c, s, x), ids + {x.told.id}, Weighed(c, t, x.told))
  {
    var b, settled := StateOf(ClosePendingReasoning(c, s, None)), Settled(c, t, None);
    ReadyToBegin(c, s, ids, t, None);
    KnownNot(s, ids, t, x.told.id);
    TextPasses(c, s, b, x);
    WeighedIs(c, t, x.told);
    if settled.Some? {
      SettledKeeps(c, t, None);
    }
    TextAgrees(c, s, ids, b, settled, t.items, x.told);
  }

  lemma ThoughtAsWeighed(c: Context, s: State, ids: set<string>, t: Tally, x: Sent)
    requires Rests(s, ids, t) && Coherent(x) && x.told.id !in ids && x.told.ToldReasoning? && Claimed(s, x.told)
    requires |s.outputItems| == t.items + 1 && s.outputItems.Keys <= ids + {x.told.id}
    ensures Agrees(Follows(c, s, x), ids + {x.told.id}, Weighed(c, t, x.told))
  {
    var b, settled := StateOf(ClosePendingReasoning(c, s, None)), Settled(c, t, None);
    ReadyToBegin(c, s, ids, t, None);
    KnownNot(s, ids, t, x.told.id);
    ThoughtPasses(c, s, b, x);
    WeighedIs(c, t, x.told);
    if settled.Some? {
      SettledKeeps(c, t, None);
    }
    ThoughtAgrees(c, s, ids, b, settled, t.items, x.told);
  }

  /** What announcing and sending a call leads to. */
  function CallFollows(c: Context, s: State, b: Option<State>, x: Told, name: string): Option<State>
    requires x.ToldTool?
  {
    if Callee(s, x, name) && b.Some? && CallRoom(b.value, x.id, x.callId, name, 0)
    then CallTold(c, b.value, x.id, x.callId, name, x.arguments) else None
  }

  lemma CallAgrees(
      c: Context, s: State, ids: set<string>, b: Option<State>, t: Option<Tally>, items: nat, x: Told, name: string)
    requires x.ToldTool? && SealedAs(s, ids, b, t) && x.id !in ids && name == c.toolNames.AnthropicName(x.name)
    requires |s.outputItems| == items + 1 <= 1024 && s.outputItems.Keys <= ids + {x.id} && (t.Some? ==> t.value.items == items)
    requires x.callId !in s.callIds && ByteLen(x.arguments) <= MAX_TOOL_ARGUMENT_BYTES && IsObject(c, FinalArguments(x.arguments))
    ensures
      Agrees(if b.None? then None else CallTold(c, b.value, x.id, x.callId, name, x.arguments),
             ids + {x.id}, PlusItem(c, t, x))
  {
    if b.Some? {
      var final := FinalArguments(x.arguments);
      CallRests(c, b.value, ids, t.value, x, name);
      if CallRoom(b.value, x.id, x.callId, name, ByteLen(final)) {
        ThenBetween(s, b.value, CallAt(b.value, x.id, x.callId, name, final, true), ids, x.id,
                    PlusCall(c, t.value, x.id, x.callId, x.name, x.arguments).value);
      }
    }
  }

  lemma CallableIs(c: Context, s: State, t: Tally, x: Told, name: string)
    requires x.ToldTool? && Counts(s, t) && name == c.toolNames.AnthropicName(x.name)
    ensures
      Callable(c, t, x.callId, x.name, x.arguments)
      <==> && Callee(s, x, name) && ByteLen(x.arguments) <= MAX_TOOL_ARGUMENT_BYTES
           && IsObject(c, FinalArguments(x.arguments))
  {
  }

  lemma CallWeighs(c: Context, s: State, ids: set<string>, b: Option<State>, t: Tally, x: Told, name: string)
    requires x.ToldTool? && Rests(s, ids, t) && SealedAs(s, ids, b, Settled(c, t, Some(x.callId))) && x.id !in ids && Named(x.id)
    requires name == c.toolNames.AnthropicName(x.name)
    requires |s.outputItems| == t.items + 1 <= 1024 && s.outputItems.Keys <= ids + {x.id}
    ensures Agrees(CallFollows(c, s, b, x, name), ids + {x.id}, Weighed(c, t, x))
  {
    WeighedIs(c, t, x);
    CallableIs(c, s, t, x, name);
    if Callable(c, t, x.callId, x.name, x.arguments) {
      if b.Some? {
        SettledKeeps(c, t, Some(x.callId));
      }
      CallAgrees(c, s, ids, b, Settled(c, t, Some(x.callId)), t.items, x, name);
    }
  }

  lemma CallGoes(c: Context, s: State, b: Option<State>, x: Sent, name: string)
    requires x.told.ToldTool? && Coherent(x) && Claimed(s, x.told) && x.told.id !in s.tools && Running(s)
    requires name == c.toolNames.AnthropicName(x.told.name) && forall k | k in s.callIds :: s.callIds[k] != x.told.id
    requires b == StateOf(ClosePendingReasoning(c, s, Some(x.told.callId)))
    requires b.Some? ==> Running(b.value) && b.value.active.None? && b.value.outputItems == s.outputItems
    ensures
      CallFollows(c, s, b, x.told, name)
      == match StateOf(RegisterTool(c, s, Announced(x.told))) case None => None case Some(m) => Follows(c, m, x)
  {
    Registers(c, s, b, x.told, name);
    if Callee(s, x.told, name) && b.Some? && CallRoom(b.value, x.told.id, x.told.callId, name, 0) {
      CallPasses(c, b.value, x, name);
    }
  }

  lemma CallAsWeighed(c: Context, s: State, ids: set<string>, t: Tally, x: Sent)
    requires Rests(s, ids, t) && Coherent(x) && x.told.id !in ids && x.told.ToldTool? && Claimed(s, x.told)
    requires |s.outputItems| == t.items + 1 && s.outputItems.Keys <= ids + {x.told.id}
    ensures
      var registered := StateOf(RegisterTool(c, s, Announced(x.told)));
      Agrees(if registered.None? then None else Follows(c, registered.value, x), ids + {x.told.id}, Weighed(c, t, x.told))
  {
    var name, b := c.toolNames.AnthropicName(x.told.name), StateOf(ClosePendingReasoning(c, s, Some(x.told.callId)));
    ReadyToBegin(c, s, ids, t, Some(x.told.callId));
    KnownNot(s, ids, t, x.told.id);
    CallGoes(c, s, b, x, name);
    CallWeighs(c, s, ids, b, t, x.told, name);
  }

  lemma ItemAsWeighed(c: Context, s: State, ids: set<string>, t: Tally, x: Sent)
    requires Between(s, ids, t) && Coherent(x) && x.told.id !in ids
    ensures Agrees(After(c, s, EventsOf(x)), ids + {x.told.id}, Weighed(c, t, x.told))
  {
    NotedRests(s, ids, t, x.told);
    ItemFollows(c, s, ids, t, x);
    if Named(x.told.id) && t.items < 1024 {
      match x.told
      case ToldText(_, _) => TextAsWeighed(c, Noted(s, x.told), ids, t, x);
      case ToldReasoning(_, _, _) => ThoughtAsWeighed(c, Noted(s, x.told), ids, t, x);
      case ToldTool(_, _, _, _) => CallAsWeighed(c, Noted(s, x.told), ids, t, x);
    }
  }

  lemma {:induction false} ItemsAsWeighed(c: Context, s: State, xs: seq<Sent>)
    requires Between(s, {}, Nothing) && Orderly(xs)
    ensures After(c, s, AllEvents(xs)).Some? <==> AllWeighed(c, xs).Some?
    ensures AllWeighed(c, xs).Some? ==> Between(After(c, s, AllEvents(xs)).value, Ids(xs), AllWeighed(c, xs).value)
  {
    if xs == [] {
      assert Ids(xs) == {};
    } else {
      var front, last := xs[..|xs| - 1], xs[|xs| - 1];
      IdsSnoc(xs);
      ItemsAsWeighed(c, s, front);
      AfterConcat(c, s, AllEvents(front), EventsOf(last));
      if AllWeighed(c, front).Some? {
        ItemAsWeighed(c, After(c, s, AllEvents(front)).value, Ids(front), AllWeighed(c, front).value, last);
      }
    }
  }

  // ---------- The first and the last event ----------

  lemma Begins(c: Context, id: Option<string>, usage: Usage)
    ensures Next(c, Fresh, Created(id, usage)).Some? <==> (id.Some? ==> Named(id.value))
    ensures Next(c, Fresh, Created(id, usage)).Some? ==> Between(Next(c, Fresh, Created(id, usage)).value, {}, Nothing)
  {
  }

  lemma NothingOpen(s: State, ids: set<string>, t: Tally)
    requires Rests(s, ids, t) && s.active.None?
    ensures !AnyOpen(s)
  {
  }

  lemma EmptyText(c: Context, s: State, id: string)
    requires s.pending.None? && s.active.None? && Running(s) && id !in s.texts && TextRoom(s, id, "")
    requires s.totalText <= MAX_TEXT_BYTES && s.totalReasoning <= MAX_REASONING_BYTES
    ensures AppendText(c, s, id, "").Ok? && FinishText(AppendText(c, s, id, "").value.state, id).Ok?
  {
    FirstText(c, s, Some(s), id, "");
    FinishesText(s, id, "");
  }

  lemma EmptyRoom(s: State, id: string, size: nat)
    requires |id| <= size <= 100 && s.stored == 0 && s.estimated == 512 && s.totalText == 0
    ensures ByteLen(id) <= 400 && TextRoom(s, id, "")
  {
    ShortBytes(id);
    EscapedBytes(id);
  }

  lemma EmptyIsOpen(c: Context, b: State, s: State)
    requires ClaimOutputItem(b, EMPTY_OUTPUT, "message") == Ok(s)
    requires AppendText(c, s, EMPTY_OUTPUT, "").Ok? && FinishText(AppendText(c, s, EMPTY_OUTPUT, "").value.state, EMPTY_OUTPUT).Ok?
    ensures EmptyOutput(c, b).Ok?
  {
  }

  lemma ClaimsNew(s: State, id: string, kind: string)
    requires Named(id) && s.outputItems == map[]
    ensures ClaimOutputItem(s, id, kind) == Ok(s.(outputItems := s.outputItems[id := kind]))
  {
    OneMore(s.outputItems, id, kind);
  }

  /** A response that said nothing has room for an empty text. */
  lemma FillsEmpty(c: Context, b: State, t: Tally)
    requires Rests(b, {}, t) && b.active.None? && b.outputItems == map[]
    requires t.stored == 0 && t.estimated == 512 && t.text == 0
    ensures EmptyOutput(c, b).Ok?
  {
    var s := b.(outputItems := b.outputItems[EMPTY_OUTPUT := "message"]);
    EmptyRoom(s, EMPTY_OUTPUT, 12);
    ClaimsNew(b, EMPTY_OUTPUT, "message");
    EmptyText(c, s, EMPTY_OUTPUT);
    EmptyIsOpen(c, b, s);
  }

  lemma AppliesCompleted(c: Context, s: State, e: UpstreamEvent)
    requires Running(s) && e.Completed?
    ensures Apply(c, s, e) == FinishTerminal(c, s, e.usage, false)
  {
  }

  lemma Terminates(c: Context, s: State, usage: Usage)
    requires Running(s)
    ensures
      StateOf(FinishTerminal(c, s, usage, false))
      == match StateOf(ClosePendingReasoning(c, s, None))
         case None => None
         case Some(closed) =>
           match StateOf(EnsureContent(c, closed))
           case None => None
           case Some(filled) => Some(Conclude(filled, usage, false).state)
  {
  }

  lemma Completes(c: Context, s: State, ids: set<string>, t: Tally, usage: Usage)
    requires Between(s, ids, t) && (ids == {} ==> t == Nothing)
    ensures Next(c, s, Completed(usage)).Some? <==> Settled(c, t, None).Some?
    ensures Next(c, s, Completed(usage)).Some? ==> Next(c, s, Completed(usage)).value.completed
  {
    AppliesCompleted(c, s, Completed(usage));
    Terminates(c, s, usage);
    Settles(c, s, ids, t, None);
    if Settled(c, t, None).Some? {
      var b := ClosePendingReasoning(c, s, None).value.state;
      NothingOpen(b, ids, Settled(c, t, None).value);
      if ids == {} {
        FillsEmpty(c, b, t);
      }
    }
  }

  // ---------- The whole response ----------

  /**
    Items told one after the other, each in whatever pieces, are accepted exactly if the response's id is in order and
    the items fit: then the response is complete, and its account is the items.
   */
  lemma OrderlyIffFits(c: Context, id: Option<string>, begin: Usage, xs: seq<Sent>, end: Usage)
    requires Orderly(xs)
    ensures
      var run := RunAll(c, Response(id, begin, xs, end));
      && (run.Ok? <==> (id.Some? ==> Named(id.value)) && Fits(c, xs))
      && (run.Ok? ==> run.value.state.completed)
      && (xs != [] ==> WholeAccount(Response(id, begin, xs, end)) == Tolds(xs))
  {
    var start, last := Created(id, begin), Completed(end);
    RunIsAfter(c, Response(id, begin, xs, end));
    AfterSnoc(c, Fresh, [start] + AllEvents(xs), last);
    AfterConcat(c, Fresh, [start], AllEvents(xs));
    AfterOne(c, Fresh, start);
    Begins(c, id, begin);
    if Next(c, Fresh, start).Some? {
      var s := Next(c, Fresh, start).value;
      ItemsAsWeighed(c, s, xs);
      if AllWeighed(c, xs).Some? {
        assert xs != [] ==> xs[0].told.id in Ids(xs);
        Completes(c, After(c, s, AllEvents(xs)).value, Ids(xs), AllWeighed(c, xs).value, end);
      }
    }
    OneSent([start] + AllEvents(xs), last, "");
    ItemsTold(start, xs, "");
    AsManyTold(xs);
  }
}
