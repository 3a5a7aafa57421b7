/**
  Responses whose items come one after the other, each announced, sent in any number of pieces, and completed: their
  events, what they take of the limits, and what their account is.
 */
module OrderlyResponses {
  import opened Wrappers
  import Sequences
  import opened Utf8
  import opened Reducer
  import opened UpstreamAccount

  // ---------- Orderly responses ----------

  /** An item as it is sent: cut into pieces or not at all, and the completion repeating the whole or silent about it. */
  datatype Sent = Sent(told: Told, pieces: seq<string>, silent: bool)

  function Whole(pieces: seq<string>): string {
    if pieces == [] then "" else Whole(pieces[..|pieces| - 1]) + pieces[|pieces| - 1]
  }

  function Words(t: Told): string {
    match t
    case ToldText(_, text) => text
    case ToldReasoning(_, text, _) => text
    case ToldTool(_, _, _, arguments) => arguments
  }

  function KindOf(t: Told): string {
    match t
    case ToldText(_, _) => "message"
    case ToldReasoning(_, _, _) => "reasoning"
    case ToldTool(_, _, _, _) => "function_call"
  }

  /** Either the pieces are all of it, or there are none and the completion says it. */
  predicate Coherent(x: Sent) {
    if x.pieces == [] && !x.silent then true else Whole(x.pieces) == Words(x.told) && !(x.silent && x.told.ToldText?)
  }

  function Announced(t: Told): Item {
    Item(Some(KindOf(t)), Some(t.id), if t.ToldTool? then Some(t.callId) else None, "",
         if t.ToldTool? then t.name else "", "", "", None, "")
  }

  function Done(t: Told, silent: bool): Item {
    var words := if silent then "" else Words(t);
    match t
    case ToldText(id, _) => Item(Some("message"), Some(id), None, "", "", "", "", None, words)
    case ToldReasoning(id, _, encrypted) => Item(Some("reasoning"), Some(id), None, "", "", "", words, Some(encrypted), "")
    case ToldTool(id, callId, name, _) => Item(Some("function_call"), Some(id), Some(callId), "", name, words, "", None, "")
  }

  function Piece(t: Told, piece: string): UpstreamEvent {
    match t
    case ToldText(id, _) => OutputTextDelta(Some(id), piece)
    case ToldReasoning(id, _, _) => ReasoningTextDelta(Some(id), piece)
    case ToldTool(id, callId, _, _) => ArgumentsDelta(Some(id), Some(callId), piece)
  }

  function Pieces(t: Told, pieces: seq<string>): seq<UpstreamEvent> {
    if pieces == [] then [] else Pieces(t, pieces[..|pieces| - 1]) + [Piece(t, pieces[|pieces| - 1])]
  }

  function EventsOf(x: Sent): seq<UpstreamEvent> {
    [OutputItemAdded(Some(Announced(x.told)))] + Pieces(x.told, x.pieces) + [OutputItemDone(Some(Done(x.told, x.silent)))]
  }

  function AllEvents(xs: seq<Sent>): seq<UpstreamEvent> {
    if xs == [] then [] else AllEvents(xs[..|xs| - 1]) + EventsOf(xs[|xs| - 1])
  }

  function Ids(xs: seq<Sent>): set<string> {
    set i | 0 <= i < |xs| :: xs[i].told.id
  }

  ghost predicate Orderly(xs: seq<Sent>) {
    && (forall i | 0 <= i < |xs| :: Coherent(xs[i]))
    && (forall i, j | 0 <= i < j < |xs| :: xs[i].told.id != xs[j].told.id)
  }

  function Response(id: Option<string>, begin: Usage, xs: seq<Sent>, end: Usage): seq<UpstreamEvent> {
    [Created(id, begin)] + AllEvents(xs) + [Completed(end)]
  }

  lemma IdsSnoc(xs: seq<Sent>)
    requires xs != [] && Orderly(xs)
    ensures
      var front, last := xs[..|xs| - 1], xs[|xs| - 1];
      Orderly(front) && Coherent(last) && last.told.id !in Ids(front) && Ids(xs) == Ids(front) + {last.told.id}
  {
    var front, last := xs[..|xs| - 1], xs[|xs| - 1];
    forall id | id in Ids(xs) ensures id in Ids(front) + {last.told.id} {
      var i :| 0 <= i < |xs| && xs[i].told.id == id;
      if i < |front| {
        assert front[i] == xs[i];
      }
    }
    forall id | id in Ids(front) ensures id in Ids(xs) {
      var i :| 0 <= i < |front| && front[i].told.id == id;
      assert xs[i] == front[i];
    }
  }

  // ---------- What fits ----------

  /** What has been counted, and the reasoning item whose ciphertext is held. */
  datatype Tally = Tally(
    items: nat, calls: nat, callIds: set<string>,
    text: nat, thinking: nat, stored: int, estimated: nat, held: Option<(string, string)>)

  function Within(t: Tally): Option<Tally> {
    if t.text <= 32 * 1024 * 1024 && t.thinking <= 16 * 1024 * 1024
       && t.stored <= 64 * 1024 * 1024 && t.estimated <= 64 * 1024 * 1024
    then Some(t) else None
  }

  /** The signature is counted in the place of the ciphertext, and does not give thinking back. */
  function Resealed(t: Tally, encrypted: nat, signature: nat, json: nat): Tally {
    t.(held := None, stored := t.stored - encrypted + signature, estimated := t.estimated + json)
  }

  function Settled(c: Context, t: Tally, closer: Option<string>): Option<Tally> {
    match t.held
    case None => Some(t)
    case Some((id, encrypted)) =>
      match c.signer.Seal(c.authEpoch, c.accountHash, id, closer, encrypted)
      case Err(_) => None
      case Ok(signature) =>
        Within(Resealed(t, ByteLen(encrypted), ByteLen(signature), EscapedJsonLen(signature)))
  }

  function PlusText(t: Tally, id: string, text: string): Option<Tally> {
    Within(t.(items := t.items + 1, text := t.text + ByteLen(text),
              stored := t.stored + ByteLen(id) + 160 + ByteLen(text),
              estimated := t.estimated + EscapedJsonLen(id) + 160 + EscapedJsonLen(text)))
  }

  function PlusReasoning(t: Tally, id: string, text: string, encrypted: string): Option<Tally> {
    Within(t.(items := t.items + 1, thinking := t.thinking + ByteLen(text) + ByteLen(encrypted),
              stored := t.stored + ByteLen(id) + 192 + ByteLen(text) + ByteLen(encrypted),
              estimated := t.estimated + EscapedJsonLen(id) + 192 + EscapedJsonLen(text),
              held := Some((id, encrypted))))
  }

  /** An id or name: something, of at most 512 bytes. */
  predicate Named(s: string) {
    s != "" && ByteLen(s) <= 512
  }

  function FinalArguments(arguments: string): string {
    if arguments == "" then "{}" else arguments
  }

  predicate Callable(c: Context, t: Tally, callId: string, name: string, arguments: string) {
    && Named(callId) && Named(c.toolNames.AnthropicName(name)) && callId !in t.callIds && t.calls < 256
    && ByteLen(arguments) <= 8 * 1024 * 1024
    && c.codec.parse(FinalArguments(arguments)).Some? && c.codec.parse(FinalArguments(arguments)).value.JObject?
  }

  function PlusCall(c: Context, t: Tally, id: string, callId: string, name: string, arguments: string): Option<Tally> {
    var called, final := c.toolNames.AnthropicName(name), FinalArguments(arguments);
    Within(CallTally(t, id, callId, called, ByteLen(final)))
  }

  function CallTally(t: Tally, id: string, callId: string, called: string, arguments: nat): Tally {
    t.(items := t.items + 1, calls := t.calls + 1, callIds := t.callIds + {callId},
       stored := t.stored + ByteLen(id) + 192 + ByteLen(callId) + ByteLen(called) + arguments,
       estimated := t.estimated + EscapedJsonLen(id) + 192 + EscapedJsonLen(callId) + EscapedJsonLen(called) + arguments)
  }

  /** One more item: its ids are in order, and whatever is held is sealed for it first. */
  function Weighed(c: Context, t: Tally, x: Told): Option<Tally> {
    if !Named(x.id) || t.items >= 1024 then None
    else if x.ToldTool? && !Callable(c, t, x.callId, x.name, x.arguments) then None
    else
      match Settled(c, t, if x.ToldTool? then Some(x.callId) else None)
      case None => None
      case Some(b) =>
        match x
        case ToldText(id, text) => PlusText(b, id, text)
        case ToldReasoning(id, text, encrypted) => PlusReasoning(b, id, text, encrypted)
        case ToldTool(id, callId, name, arguments) => PlusCall(c, b, id, callId, name, arguments)
  }

  const Nothing := Tally(0, 0, {}, 0, 0, 0, 512, None)

  function AllWeighed(c: Context, xs: seq<Sent>): Option<Tally> {
    if xs == [] then Some(Nothing)
    else
      match AllWeighed(c, xs[..|xs| - 1])
      case None => None
      case Some(t) => Weighed(c, t, xs[|xs| - 1].told)
  }

  predicate Fits(c: Context, xs: seq<Sent>) {
    var t := AllWeighed(c, xs);
    t.Some? && Settled(c, t.value, None).Some?
  }

  // ---------- Running on ----------

  function After(c: Context, s: State, es: seq<UpstreamEvent>): Option<State> {
    if es == [] then Some(s)
    else
      match After(c, s, es[..|es| - 1])
      case None => None
      case Some(before) =>
        match Apply(c, before, es[|es| - 1])
        case Err(_) => None
        case Ok(e) => Some(e.state)
  }

  lemma {:induction false} RunIsAfter(c: Context, es: seq<UpstreamEvent>)
    ensures RunAll(c, es).Ok? <==> After(c, Fresh, es).Some?
    ensures RunAll(c, es).Ok? ==> RunAll(c, es).value.state == After(c, Fresh, es).value
  {
    if es != [] {
      RunIsAfter(c, es[..|es| - 1]);
    }
  }

  lemma {:induction false} AfterConcat(c: Context, s: State, a: seq<UpstreamEvent>, b: seq<UpstreamEvent>)
    ensures After(c, s, a + b) == match After(c, s, a) case None => None case Some(m) => After(c, m, b)
  {
    if b == [] {
      Sequences.ConcatEmpty(a);
    } else {
      AfterConcat(c, s, a, b[..|b| - 1]);
      Sequences.ConcatLast(a, b);
    }
  }

  function StateOf(o: Outcome): Option<State> {
    if o.Ok? then Some(o.value.state) else None
  }

  function Next(c: Context, s: State, e: UpstreamEvent): Option<State> {
    StateOf(Apply(c, s, e))
  }

  lemma AfterOne(c: Context, s: State, e: UpstreamEvent)
    ensures After(c, s, [e]) == Next(c, s, e)
  {
    assert [e][..0] == [];
  }

  lemma AfterItem(c: Context, s: State, x: Sent)
    ensures
      After(c, s, EventsOf(x))
      == match Next(c, s, OutputItemAdded(Some(Announced(x.told))))
         case None => None
         case Some(added) =>
           match After(c, added, Pieces(x.told, x.pieces))
           case None => None
           case Some(sent) => Next(c, sent, OutputItemDone(Some(Done(x.told, x.silent))))
  {
    var added, done := [OutputItemAdded(Some(Announced(x.told)))], [OutputItemDone(Some(Done(x.told, x.silent)))];
    AfterConcat(c, s, added + Pieces(x.told, x.pieces), done);
    AfterConcat(c, s, added, Pieces(x.told, x.pieces));
    AfterOne(c, s, added[0]);
    if After(c, s, added + Pieces(x.told, x.pieces)).Some? {
      AfterOne(c, After(c, s, added + Pieces(x.told, x.pieces)).value, done[0]);
    }
  }

  // ---------- The account ----------

  function Final(t: Told): Told {
    if t.ToldTool? then t.(arguments := FinalArguments(t.arguments)) else t
  }

  function Tolds(xs: seq<Sent>): seq<Told> {
    if xs == [] then [] else Tolds(xs[..|xs| - 1]) + [Final(xs[|xs| - 1].told)]
  }

  lemma PieceSent(front: seq<UpstreamEvent>, t: Told, piece: string, id: string)
    ensures Account(front + [Piece(t, piece)]) == Account(front)
    ensures
      ReasoningSent(front + [Piece(t, piece)], id)
      == ReasoningSent(front, id) + (if t.ToldReasoning? && t.id == id then piece else "")
    ensures
      ArgumentsSent(front + [Piece(t, piece)], id)
      == ArgumentsSent(front, id) + (if t.ToldTool? && t.id == id then piece else "")
  {
    Sequences.Snoc(front, Piece(t, piece));
    Sequences.ConcatEmpty(Account(front));
  }

  lemma Collected(told: string, before: string, piece: string, mine: bool)
    ensures
      told + (if mine then before else "") + (if mine then piece else "") == told + (if mine then before + piece else "")
  {
    Sequences.Associate(told, before, piece);
    Sequences.ConcatEmpty(told);
  }

  lemma {:induction false} PiecesSent(front: seq<UpstreamEvent>, t: Told, pieces: seq<string>, id: string)
    ensures
      var es := front + Pieces(t, pieces);
      && Account(es) == Account(front)
      && ReasoningSent(es, id) == ReasoningSent(front, id) + (if t.ToldReasoning? && t.id == id then Whole(pieces) else "")
      && ArgumentsSent(es, id) == ArgumentsSent(front, id) + (if t.ToldTool? && t.id == id then Whole(pieces) else "")
  {
    if pieces == [] {
      Sequences.ConcatEmpty(front);
    } else {
      var n := |pieces| - 1;
      var before := front + Pieces(t, pieces[..n]);
      PiecesSent(front, t, pieces[..n], id);
      Sequences.Associate(front, Pieces(t, pieces[..n]), [Piece(t, pieces[n])]);
      PieceSent(before, t, pieces[n], id);
      Collected(ReasoningSent(front, id), Whole(pieces[..n]), pieces[n], t.ToldReasoning? && t.id == id);
      Collected(ArgumentsSent(front, id), Whole(pieces[..n]), pieces[n], t.ToldTool? && t.id == id);
    }
  }

  lemma OneSent(front: seq<UpstreamEvent>, e: UpstreamEvent, id: string)
    requires !e.ReasoningTextDelta? && !e.ArgumentsDelta?
    ensures ReasoningSent(front + [e], id) == ReasoningSent(front, id)
    ensures ArgumentsSent(front + [e], id) == ArgumentsSent(front, id)
    ensures Account(front + [e]) == Account(front) + ToldNext(front, e)
  {
    Sequences.Snoc(front, e);
  }

  /** All of an item's events but the last. */
  function BeforeDone(front: seq<UpstreamEvent>, x: Sent): seq<UpstreamEvent> {
    front + [OutputItemAdded(Some(Announced(x.told)))] + Pieces(x.told, x.pieces)
  }

  lemma ThenDone(front: seq<UpstreamEvent>, x: Sent)
    ensures front + EventsOf(x) == BeforeDone(front, x) + [OutputItemDone(Some(Done(x.told, x.silent)))]
  {
  }

  lemma BeforeDoneSent(front: seq<UpstreamEvent>, x: Sent, id: string)
    ensures
      var es := BeforeDone(front, x);
      && Account(es) == Account(front)
      && ReasoningSent(es, id)
         == ReasoningSent(front, id) + (if x.told.ToldReasoning? && x.told.id == id then Whole(x.pieces) else "")
      && ArgumentsSent(es, id)
         == ArgumentsSent(front, id) + (if x.told.ToldTool? && x.told.id == id then Whole(x.pieces) else "")
  {
    var added := OutputItemAdded(Some(Announced(x.told)));
    OneSent(front, added, id);
    Sequences.ConcatEmpty(Account(front));
    PiecesSent(front + [added], x.told, x.pieces, id);
  }

  lemma ItemTold(front: seq<UpstreamEvent>, x: Sent)
    requires Coherent(x) && ReasoningSent(front, x.told.id) == "" && ArgumentsSent(front, x.told.id) == ""
    ensures Account(front + EventsOf(x)) == Account(front) + [Final(x.told)]
  {
    ThenDone(front, x);
    BeforeDoneSent(front, x, x.told.id);
    DoneTells(BeforeDone(front, x), x);
    OneSent(BeforeDone(front, x), OutputItemDone(Some(Done(x.told, x.silent))), x.told.id);
  }

  lemma OthersSent(front: seq<UpstreamEvent>, x: Sent, id: string)
    requires id != x.told.id && ReasoningSent(front, id) == "" && ArgumentsSent(front, id) == ""
    ensures ReasoningSent(front + EventsOf(x), id) == "" && ArgumentsSent(front + EventsOf(x), id) == ""
  {
    ThenDone(front, x);
    BeforeDoneSent(front, x, id);
    OneSent(BeforeDone(front, x), OutputItemDone(Some(Done(x.told, x.silent))), id);
  }

  lemma DoneTells(sent: seq<UpstreamEvent>, x: Sent)
    requires Coherent(x)
    requires ReasoningSent(sent, x.told.id) == if x.told.ToldReasoning? then Whole(x.pieces) else ""
    requires ArgumentsSent(sent, x.told.id) == if x.told.ToldTool? then Whole(x.pieces) else ""
    ensures ToldBy(sent, Done(x.told, x.silent)) == Some(Final(x.told))
  {
    match x.told
    case ToldText(_, _) =>
    case ToldReasoning(_, _, _) => SummaryIs(sent, x.told, Done(x.told, x.silent));
    case ToldTool(_, _, _, _) => ArgumentsAre(sent, x.told, Done(x.told, x.silent));
  }

  lemma SummaryIs(sent: seq<UpstreamEvent>, t: Told, item: Item)
    requires t.ToldReasoning? && item.id == Some(t.id) && item.kind == Some("reasoning") && item.encrypted == Some(t.encrypted)
    requires item.summary == t.text || (item.summary == "" && ReasoningSent(sent, t.id) == t.text)
    requires t.text == "" ==> ReasoningSent(sent, t.id) == ""
    ensures ToldBy(sent, item) == Some(t)
  {
  }

  lemma ArgumentsAre(sent: seq<UpstreamEvent>, t: Told, item: Item)
    requires t.ToldTool? && item.id == Some(t.id) && item.kind == Some("function_call") && item.callId == Some(t.callId)
    requires item.name == t.name
    requires item.arguments == t.arguments || (item.arguments == "" && ArgumentsSent(sent, t.id) == t.arguments)
    requires t.arguments == "" ==> ArgumentsSent(sent, t.id) == ""
    ensures ToldBy(sent, item) == Some(Final(t))
  {
  }

  lemma {:induction false} ItemsTold(start: UpstreamEvent, xs: seq<Sent>, id: string)
    requires Orderly(xs) && start.Created?
    ensures
      var es := [start] + AllEvents(xs);
      && Account(es) == Tolds(xs)
      && (id !in Ids(xs) ==> ReasoningSent(es, id) == "" && ArgumentsSent(es, id) == "")
  {
    if xs == [] {
      OneSent([], start, id);
      assert [start] + [] == [] + [start];
    } else {
      var front, last := xs[..|xs| - 1], xs[|xs| - 1];
      IdsSnoc(xs);
      ItemsTold(start, front, id);
      ItemsTold(start, front, last.told.id);
      ItemTold([start] + AllEvents(front), last);
      if id !in Ids(xs) {
        OthersSent([start] + AllEvents(front), last, id);
      }
      Sequences.Associate([start], AllEvents(front), EventsOf(last));
    }
  }

  lemma {:induction false} AsManyTold(xs: seq<Sent>)
    ensures |Tolds(xs)| == |xs|
  {
    if xs != [] {
      AsManyTold(xs[..|xs| - 1]);
    }
  }
}
