/**
  Calls through the reducer, likewise: announced at the cost of their names, their arguments collected, and given the
  empty object where none came.
 */
module OrderlyCalls {
  import opened Wrappers
  import opened Utf8
  import opened ProtocolErrors
  import opened Reducer
  import opened UpstreamAccount
  import opened OrderlyResponses
  import opened OrderlySteps

  // ---------- Calls ----------

  /** What a call costs: its names and overhead, and its arguments. */
  predicate CallRoom(b: State, id: string, callId: string, name: string, arguments: nat) {
    && b.stored + ByteLen(id) + TOOL_OVERHEAD + ByteLen(callId) + ByteLen(name) + arguments <= MAX_NONSTREAM_BYTES
    && b.estimated + EscapedJsonLen(id) + TOOL_OVERHEAD + EscapedJsonLen(callId) + EscapedJsonLen(name) + arguments
       <= MAX_NONSTREAM_BYTES
  }

  function Charged(b: State, id: string, callId: string, name: string, arguments: nat): State {
    b.(stored := b.stored + ByteLen(id) + TOOL_OVERHEAD + ByteLen(callId) + ByteLen(name) + arguments,
       estimated := b.estimated + EscapedJsonLen(id) + TOOL_OVERHEAD + EscapedJsonLen(callId) + EscapedJsonLen(name)
                    + arguments)
  }

  function Registered(b: State, id: string, callId: string, name: string): State {
    Charged(b, id, callId, name, 0).(
      callIds := b.callIds[callId := id],
      tools := b.tools[id := ToolState(None, callId, name, "", false)])
  }

  function CallAt(b: State, id: string, callId: string, name: string, arguments: string, closed: bool): State {
    Charged(b, id, callId, name, ByteLen(arguments)).(
      nextIndex := b.nextIndex + 1,
      callIds := b.callIds[callId := id],
      tools := b.tools[id := ToolState(Some(b.nextIndex), callId, name, arguments, closed)],
      blockOrder := b.blockOrder + [ToolKey(id)],
      active := if closed then None else Some(ToolKey(id)))
  }

  function Charge(s: State, amount: nat, json: nat): Option<State> {
    if s.stored + amount <= MAX_NONSTREAM_BYTES && s.estimated + json <= MAX_NONSTREAM_BYTES
    then Some(s.(stored := s.stored + amount, estimated := s.estimated + json)) else None
  }

  function Good(r: Result<State, ProtocolError>): Option<State> {
    if r.Ok? then Some(r.value) else None
  }

  lemma Charges(s: State, amount: nat, json: nat)
    ensures Good(ReservePayload(s, amount, json)) == Charge(s, amount, json)
  {
    Pays(s, amount, json);
  }

  lemma ChargesIdentity(s: State, value: string, overhead: nat)
    ensures Good(ReserveIdentity(s, value, overhead)) == Charge(s, ByteLen(value) + overhead, EscapedJsonLen(value) + overhead)
  {
    ReservesIdentity(s, value, overhead);
    Charges(s, ByteLen(value) + overhead, EscapedJsonLen(value) + overhead);
  }

  function ChargeOn(s: Option<State>, amount: nat, json: nat): Option<State> {
    if s.None? then None else Charge(s.value, amount, json)
  }

  lemma ChargesThrice(s: State, a: nat, m: nat, b: nat, n: nat, c: nat, o: nat)
    ensures ChargeOn(ChargeOn(Charge(s, a, m), b, n), c, o) == Charge(s, a + b + c, m + n + o)
  {
  }

  function IdentityOn(s: Option<State>, value: string, overhead: nat): Option<State> {
    if s.None? then None else Good(ReserveIdentity(s.value, value, overhead))
  }

  lemma IdentitiesCharged(s: Option<State>, value: string, overhead: nat, amount: nat, json: nat)
    requires amount == ByteLen(value) + overhead && json == EscapedJsonLen(value) + overhead
    ensures IdentityOn(s, value, overhead) == ChargeOn(s, amount, json)
  {
    if s.Some? {
      ChargesIdentity(s.value, value, overhead);
    }
  }

  function WithTool(s: Option<State>, id: string, callId: string, name: string): Option<State> {
    if s.None? then None
    else
      Some(s.value.(
        callIds := s.value.callIds[callId := id],
        tools := s.value.tools[id := ToolState(None, callId, name, "", false)]))
  }

  lemma AddsTool(s: State, id: string, callId: string, name: string)
    ensures
      Good(AddTool(s, id, callId, name))
      == WithTool(IdentityOn(IdentityOn(IdentityOn(Some(s), id, TOOL_OVERHEAD), callId, 0), name, 0), id, callId, name)
  {
  }

  lemma Totalled(b: State, id: string, callId: string, name: string, amount: nat, json: nat)
    requires amount == ByteLen(id) + TOOL_OVERHEAD + ByteLen(callId) + ByteLen(name)
    requires json == EscapedJsonLen(id) + TOOL_OVERHEAD + EscapedJsonLen(callId) + EscapedJsonLen(name)
    ensures
      WithTool(Charge(b, amount, json), id, callId, name)
      == if CallRoom(b, id, callId, name, 0) then Some(Registered(b, id, callId, name)) else None
  {
  }

  lemma IdentitiesInTurn(b: State, id: string, callId: string, name: string, a: nat, m: nat)
    requires a == ByteLen(id) + TOOL_OVERHEAD && m == EscapedJsonLen(id) + TOOL_OVERHEAD
    ensures
      IdentityOn(IdentityOn(IdentityOn(Some(b), id, TOOL_OVERHEAD), callId, 0), name, 0)
      == ChargeOn(ChargeOn(Charge(b, a, m), ByteLen(callId), EscapedJsonLen(callId)), ByteLen(name), EscapedJsonLen(name))
  {
    var first := IdentityOn(Some(b), id, TOOL_OVERHEAD);
    IdentitiesCharged(Some(b), id, TOOL_OVERHEAD, a, m);
    IdentitiesCharged(first, callId, 0, ByteLen(callId), EscapedJsonLen(callId));
    IdentitiesCharged(IdentityOn(first, callId, 0), name, 0, ByteLen(name), EscapedJsonLen(name));
  }

  lemma AddsCall(b: State, id: string, callId: string, name: string)
    ensures
      Good(AddTool(b, id, callId, name))
      == if CallRoom(b, id, callId, name, 0) then Some(Registered(b, id, callId, name)) else None
  {
    var a, m := ByteLen(id) + TOOL_OVERHEAD, EscapedJsonLen(id) + TOOL_OVERHEAD;
    AddsTool(b, id, callId, name);
    IdentitiesInTurn(b, id, callId, name, a, m);
    ChargesThrice(b, a, m, ByteLen(callId), EscapedJsonLen(callId), ByteLen(name), EscapedJsonLen(name));
    Totalled(b, id, callId, name, a + ByteLen(callId) + ByteLen(name), m + EscapedJsonLen(callId) + EscapedJsonLen(name));
  }

  /** A call that can be told: who is called, and that its arguments are an object. */
  predicate Callee(s: State, t: Told, name: string)
    requires t.ToldTool?
  {
    Named(t.callId) && Named(name) && t.callId !in s.callIds && |s.tools| < MAX_TOOL_CALLS
  }

  lemma Registers(c: Context, s: State, b: Option<State>, t: Told, name: string)
    requires t.ToldTool? && Named(t.id) && t.id !in s.tools && name == c.toolNames.AnthropicName(t.name)
    requires forall k | k in s.callIds :: s.callIds[k] != t.id
    requires b == StateOf(ClosePendingReasoning(c, s, Some(t.callId)))
    ensures
      StateOf(RegisterTool(c, s, Announced(t)))
      == if Callee(s, t, name) && b.Some? && CallRoom(b.value, t.id, t.callId, name, 0)
         then Some(Registered(b.value, t.id, t.callId, name)) else None
  {
    IdRequired(t.id, "output item id is invalid");
    if b.Some? {
      AddsCall(b.value, t.id, t.callId, name);
    }
  }

  lemma RegistersAgain(c: Context, s: State, t: Told, silent: bool, name: string)
    requires t.ToldTool? && Named(t.id) && Named(t.callId) && Named(name) && name == c.toolNames.AnthropicName(t.name)
    requires t.id in s.tools && s.tools[t.id].callId == t.callId && s.tools[t.id].name == name && !s.tools[t.id].closed
    ensures RegisterTool(c, s, Done(t, silent)) == Ok(Emission(s, []))
  {
    IdRequired(t.id, "output item id is invalid");
  }

  lemma StartsCall(b: State, id: string, callId: string, name: string)
    requires b.active.None?
    ensures StateOf(StartRegisteredTool(Registered(b, id, callId, name), id)) == Some(CallAt(b, id, callId, name, "", false))
  {
    var s := Registered(b, id, callId, name);
    assert s.tools[id := ToolState(Some(b.nextIndex), callId, name, "", false)]
        == b.tools[id := ToolState(Some(b.nextIndex), callId, name, "", false)];
  }

  lemma StaysStarted(b: State, id: string, callId: string, name: string, arguments: string)
    ensures
      StartRegisteredTool(CallAt(b, id, callId, name, arguments, false), id)
      == Ok(Emission(CallAt(b, id, callId, name, arguments, false), []))
  {
  }

  function CallSent(b: State, id: string, callId: string, name: string, arguments: string): Option<State> {
    if ByteLen(arguments) <= MAX_TOOL_ARGUMENT_BYTES && CallRoom(b, id, callId, name, ByteLen(arguments))
    then Some(CallAt(b, id, callId, name, arguments, false)) else None
  }

  lemma PushesOnto(s: State, id: string, delta: string, amount: nat)
    requires id in s.tools && s.tools[id].index.Some? && amount == ByteLen(delta)
    ensures
      StateOf(PushArguments(s, id, delta))
      == if ByteLen(s.tools[id].arguments) + amount > MAX_TOOL_ARGUMENT_BYTES || Charge(s, amount, amount).None? then None
         else
           var t := s.tools[id];
           Some(Charge(s, amount, amount).value.(tools := s.tools[id := t.(arguments := t.arguments + delta)]))
  {
    Charges(s, amount, amount);
  }

  lemma ChargesCall(b: State, id: string, callId: string, name: string, before: string, after: string, amount: nat)
    requires ByteLen(after) == ByteLen(before) + amount
    ensures
      var s := CallAt(b, id, callId, name, before, false);
      && (Charge(s, amount, amount).Some? <==> CallRoom(b, id, callId, name, ByteLen(after)))
      && (Charge(s, amount, amount).Some? ==>
            Charge(s, amount, amount).value.(tools := s.tools[id := ToolState(Some(b.nextIndex), callId, name, after, false)])
            == CallAt(b, id, callId, name, after, false))
  {
    var s := CallAt(b, id, callId, name, before, false);
    assert s.tools[id := ToolState(Some(b.nextIndex), callId, name, after, false)]
        == b.tools[id := ToolState(Some(b.nextIndex), callId, name, after, false)];
  }

  lemma PushesArguments(b: State, id: string, callId: string, name: string, arguments: string, delta: string)
    ensures
      StateOf(PushArguments(CallAt(b, id, callId, name, arguments, false), id, delta))
      == CallSent(b, id, callId, name, arguments + delta)
  {
    ByteLenConcat(arguments, delta);
    PushesOnto(CallAt(b, id, callId, name, arguments, false), id, delta, ByteLen(delta));
    ChargesCall(b, id, callId, name, arguments, arguments + delta, ByteLen(delta));
  }

  lemma Appends(s: State, id: string, callId: string, delta: string)
    requires id in s.tools && s.tools[id].callId == callId && !s.tools[id].closed
    ensures
      StateOf(AppendTool(s, id, Some(callId), delta))
      == match StateOf(StartRegisteredTool(s, id))
         case None => None
         case Some(begun) => StateOf(PushArguments(begun, id, delta))
  {
  }

  lemma AppendsFirst(b: State, id: string, callId: string, name: string, delta: string)
    requires b.active.None?
    ensures
      StateOf(AppendTool(Registered(b, id, callId, name), id, Some(callId), delta)) == CallSent(b, id, callId, name, delta)
  {
    assert "" + delta == delta;
    Appends(Registered(b, id, callId, name), id, callId, delta);
    StartsCall(b, id, callId, name);
    PushesArguments(b, id, callId, name, "", delta);
  }

  lemma AppendsNext(b: State, id: string, callId: string, name: string, arguments: string, delta: string)
    ensures
      StateOf(AppendTool(CallAt(b, id, callId, name, arguments, false), id, Some(callId), delta))
      == CallSent(b, id, callId, name, arguments + delta)
  {
    Appends(CallAt(b, id, callId, name, arguments, false), id, callId, delta);
    StaysStarted(b, id, callId, name, arguments);
    PushesArguments(b, id, callId, name, arguments, delta);
  }

  lemma NextCall(c: Context, s: State, t: Told, piece: string)
    requires Running(s) && Claimed(s, t) && t.ToldTool?
    ensures Next(c, s, Piece(t, piece)) == StateOf(AppendTool(s, t.id, Some(t.callId), piece))
  {
    IdRequired(t.id, "upstream item id is invalid");
    ClaimsAgain(s, t.id, "function_call");
  }

  lemma CallRoomForLess(b: State, id: string, callId: string, name: string, arguments: string, more: string)
    ensures CallSent(b, id, callId, name, arguments + more).Some? ==> CallSent(b, id, callId, name, arguments).Some?
  {
    ByteLenConcat(arguments, more);
  }

  lemma {:induction false} SendsCall(c: Context, b: State, t: Told, name: string, pieces: seq<string>)
    requires t.ToldTool? && Running(b) && Claimed(b, t) && b.active.None? && pieces != []
    ensures
      After(c, Registered(b, t.id, t.callId, name), Pieces(t, pieces)) == CallSent(b, t.id, t.callId, name, Whole(pieces))
  {
    var front, last := pieces[..|pieces| - 1], pieces[|pieces| - 1];
    var s := Registered(b, t.id, t.callId, name);
    if front == [] {
      assert "" + last == last;
      AppendsFirst(b, t.id, t.callId, name, last);
      NextCall(c, s, t, last);
    } else {
      SendsCall(c, b, t, name, front);
      CallRoomForLess(b, t.id, t.callId, name, Whole(front), last);
      if CallSent(b, t.id, t.callId, name, Whole(front)).Some? {
        AppendsNext(b, t.id, t.callId, name, Whole(front), last);
        NextCall(c, CallAt(b, t.id, t.callId, name, Whole(front), false), t, last);
      }
    }
    AfterSnoc(c, s, Pieces(t, front), Piece(t, last));
  }

  // ---------- Completing a call ----------

  predicate IsObject(c: Context, arguments: string) {
    c.codec.parse(arguments).Some? && c.codec.parse(arguments).value.JObject?
  }

  lemma Closes(c: Context, b: State, id: string, callId: string, name: string, arguments: string)
    ensures
      StateOf(CloseTool(c, CallAt(b, id, callId, name, arguments, false), id))
      == if IsObject(c, arguments) then Some(CallAt(b, id, callId, name, arguments, true)) else None
  {
    assert b.tools[id := ToolState(Some(b.nextIndex), callId, name, arguments, false)]
                  [id := ToolState(Some(b.nextIndex), callId, name, arguments, true)]
        == b.tools[id := ToolState(Some(b.nextIndex), callId, name, arguments, true)];
  }

  lemma EmptyObject()
    ensures ByteLen("{}") == 2 && ByteLen("") == 0
  {
    ByteLenConcat("{", "}");
    assert "{" + "}" == "{}";
  }

  lemma Fills(b: State, id: string, callId: string, name: string)
    ensures
      Good(FillArguments(CallAt(b, id, callId, name, "", false), id)) == CallSent(b, id, callId, name, "{}")
  {
    EmptyObject();
    Charges(CallAt(b, id, callId, name, "", false), 2, 2);
    ChargesCall(b, id, callId, name, "", "{}", 2);
  }

  lemma FillsNothing(b: State, id: string, callId: string, name: string, arguments: string)
    requires arguments != ""
    ensures
      FillArguments(CallAt(b, id, callId, name, arguments, false), id) == Ok(CallAt(b, id, callId, name, arguments, false))
  {
  }

  function CallTold(c: Context, b: State, id: string, callId: string, name: string, arguments: string): Option<State> {
    var final := FinalArguments(arguments);
    if ByteLen(arguments) <= MAX_TOOL_ARGUMENT_BYTES && CallRoom(b, id, callId, name, ByteLen(final)) && IsObject(c, final)
    then Some(CallAt(b, id, callId, name, final, true)) else None
  }

  lemma FillsThenCloses(c: Context, s: State, id: string)
    requires id in s.tools
    ensures
      StateOf(FillAndClose(c, s, id))
      == match Good(FillArguments(s, id))
         case None => None
         case Some(filled) => if id in filled.tools then StateOf(CloseTool(c, filled, id)) else None
  {
  }

  lemma FinishesArguments(c: Context, b: State, id: string, callId: string, name: string, arguments: string)
    requires arguments != "" ==> CallSent(b, id, callId, name, arguments).Some?
    ensures
      StateOf(FillAndClose(c, CallAt(b, id, callId, name, arguments, false), id))
      == CallTold(c, b, id, callId, name, arguments)
  {
    EmptyObject();
    FillsThenCloses(c, CallAt(b, id, callId, name, arguments, false), id);
    Closes(c, b, id, callId, name, FinalArguments(arguments));
    if arguments == "" {
      Fills(b, id, callId, name);
    } else {
      FillsNothing(b, id, callId, name, arguments);
    }
  }

  lemma SettlesUnsent(b: State, t: Told, silent: bool, name: string)
    requires t.ToldTool? && (silent ==> t.arguments == "")
    ensures
      StateOf(SettleArguments(CallAt(b, t.id, t.callId, name, "", false), t.id, Done(t, silent)))
      == if t.arguments == "" then Some(CallAt(b, t.id, t.callId, name, "", false))
         else CallSent(b, t.id, t.callId, name, t.arguments)
  {
    assert "" + t.arguments == t.arguments;
    AppendsNext(b, t.id, t.callId, name, "", t.arguments);
  }

  lemma SettlesSent(b: State, t: Told, silent: bool, name: string)
    requires t.ToldTool?
    ensures
      StateOf(SettleArguments(CallAt(b, t.id, t.callId, name, t.arguments, false), t.id, Done(t, silent)))
      == Some(CallAt(b, t.id, t.callId, name, t.arguments, false))
  {
  }

  lemma FinishesCall(c: Context, s: State, t: Told, silent: bool)
    requires t.ToldTool? && Named(t.id) && RegisterTool(c, s, Done(t, silent)) == Ok(Emission(s, []))
    ensures
      StateOf(FinishTool(c, s, Done(t, silent)))
      == match StateOf(StartRegisteredTool(s, t.id))
         case None => None
         case Some(begun) =>
           match StateOf(SettleArguments(begun, t.id, Done(t, silent)))
           case None => None
           case Some(settled) => StateOf(FillAndClose(c, settled, t.id))
  {
    IdRequired(t.id, "output item id is invalid");
  }

  lemma EmptyCallRoom(b: State, id: string, callId: string, name: string)
    requires CallRoom(b, id, callId, name, 0)
    ensures CallSent(b, id, callId, name, "").Some?
  {
  }

  lemma CompletesUnsent(c: Context, b: State, t: Told, silent: bool, name: string)
    requires t.ToldTool? && Running(b) && Claimed(b, t) && b.active.None? && (silent ==> t.arguments == "")
    requires name == c.toolNames.AnthropicName(t.name) && Named(t.callId) && Named(name)
    ensures
      Next(c, Registered(b, t.id, t.callId, name), OutputItemDone(Some(Done(t, silent))))
      == if t.arguments == "" || CallSent(b, t.id, t.callId, name, t.arguments).Some?
         then CallTold(c, b, t.id, t.callId, name, t.arguments) else None
  {
    var s := Registered(b, t.id, t.callId, name);
    NextDone(c, s, t, silent);
    RegistersAgain(c, s, t, silent, name);
    FinishesCall(c, s, t, silent);
    StartsCall(b, t.id, t.callId, name);
    SettlesUnsent(b, t, silent, name);
    if t.arguments == "" || CallSent(b, t.id, t.callId, name, t.arguments).Some? {
      FinishesArguments(c, b, t.id, t.callId, name, t.arguments);
    }
  }

  lemma CompletesSent(c: Context, b: State, t: Told, silent: bool, name: string)
    requires t.ToldTool? && Running(b) && Claimed(b, t) && CallSent(b, t.id, t.callId, name, t.arguments).Some?
    requires name == c.toolNames.AnthropicName(t.name) && Named(t.callId) && Named(name)
    ensures
      Next(c, CallAt(b, t.id, t.callId, name, t.arguments, false), OutputItemDone(Some(Done(t, silent))))
      == CallTold(c, b, t.id, t.callId, name, t.arguments)
  {
    var s := CallAt(b, t.id, t.callId, name, t.arguments, false);
    NextDone(c, s, t, silent);
    RegistersAgain(c, s, t, silent, name);
    FinishesCall(c, s, t, silent);
    StaysStarted(b, t.id, t.callId, name, t.arguments);
    SettlesSent(b, t, silent, name);
    FinishesArguments(c, b, t.id, t.callId, name, t.arguments);
  }

  /** However they are cut up, arguments are accepted if there is room for them and they are an object. */
  lemma CallPasses(c: Context, b: State, x: Sent, name: string)
    requires Coherent(x) && x.told.ToldTool? && Running(b) && Claimed(b, x.told) && b.active.None?
    requires name == c.toolNames.AnthropicName(x.told.name) && Named(x.told.callId) && Named(name)
    requires CallRoom(b, x.told.id, x.told.callId, name, 0)
    ensures
      var told := CallTold(c, b, x.told.id, x.told.callId, name, x.told.arguments);
      match After(c, Registered(b, x.told.id, x.told.callId, name), Pieces(x.told, x.pieces))
      case None => told == None
      case Some(m) => Next(c, m, OutputItemDone(Some(Done(x.told, x.silent)))) == told
  {
    var t := x.told;
    EmptyCallRoom(b, t.id, t.callId, name);
    TellsIfSent(c, b, t.id, t.callId, name, t.arguments);
    if x.pieces == [] {
      CompletesUnsent(c, b, t, x.silent, name);
    } else {
      SendsCall(c, b, t, name, x.pieces);
      if CallSent(b, t.id, t.callId, name, t.arguments).Some? {
        CompletesSent(c, b, t, x.silent, name);
      }
    }
  }

  lemma TellsIfSent(c: Context, b: State, id: string, callId: string, name: string, arguments: string)
    ensures
      arguments != "" && CallSent(b, id, callId, name, arguments).None? ==> CallTold(c, b, id, callId, name, arguments).None?
  {
  }
}
