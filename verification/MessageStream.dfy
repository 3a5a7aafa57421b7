/** The Anthropic Messages event stream: lifecycle, grammar, assembled message. */
module MessageStream {
  // The lifecycle is the acceptor every producer has to satisfy; the grammar is the declarative form of what the
  // acceptor recognises; the assembled message is what a client makes of the events.

  import opened Wrappers
  import Sequences

  datatype Head =
    | TextHead(text: string)
    | ThinkingHead(thinking: string, signature: string)
    | ToolHead(id: string, name: string)
    | OtherHead(raw: string)

  datatype Delta =
    | TextDelta(text: string)
    | ThinkingDelta(thinking: string)
    | SignatureDelta(signature: string)
    | InputJsonDelta(json: string)
    | OtherDelta(raw: string)

  datatype Event =
    | Ping
    | MessageStart(id: string, model: string, inputTokens: nat)
    | BlockStart(index: nat, head: Head)
    | BlockDelta(index: nat, delta: Delta)
    | BlockStop(index: nat)
    | MessageDelta(stopReason: Option<string>, inputTokens: nat, outputTokens: nat)
    | MessageStop
    | Failure(detail: string)

  // ---------- Lifecycle ----------

  datatype Phase = AwaitMessageStart | Streaming | AfterMessageDelta | Complete | Failed

  datatype Life = Life(phase: Phase, open: Option<nat>, next: nat)

  const Initial := Life(AwaitMessageStart, None, 0)

  // Block indexes are unsigned 64-bit; closing the last one cannot count on.
  const MAX_INDEX: nat := 0xFFFF_FFFF_FFFF_FFFF

  function Advance(l: Life, e: Event): Option<Life> {
    match e
    case Ping =>
      if l.phase in {Complete, Failed} then None else Some(l)
    case MessageStart(_, _, _) =>
      if l.phase != AwaitMessageStart then None else Some(l.(phase := Streaming))
    case BlockStart(index, _) =>
      if l.phase != Streaming || l.open.Some? || index != l.next then None
      else Some(l.(open := Some(index)))
    case BlockDelta(index, _) =>
      if l.phase != Streaming || l.open != Some(index) then None else Some(l)
    case BlockStop(index) =>
      if l.phase != Streaming || l.open != Some(index) || l.next >= MAX_INDEX then None
      else Some(l.(open := None, next := l.next + 1))
    case MessageDelta(_, _, _) =>
      if l.phase != Streaming || l.open.Some? then None else Some(l.(phase := AfterMessageDelta))
    case MessageStop =>
      if l.phase != AfterMessageDelta then None else Some(l.(phase := Complete))
    case Failure(_) =>
      if l.phase in {Complete, Failed} then None else Some(l.(phase := Failed))
  }

  function Run(l: Life, es: seq<Event>): Option<Life> {
    if es == [] then Some(l)
    else
      match Run(l, es[..|es| - 1])
      case None => None
      case Some(before) => Advance(before, es[|es| - 1])
  }

  lemma RunSnoc(l: Life, es: seq<Event>, e: Event)
    ensures Run(l, es + [e]) == (match Run(l, es) case None => None case Some(m) => Advance(m, e))
  {
    Sequences.Snoc(es, e);
  }

  lemma {:induction false} RunConcat(l: Life, a: seq<Event>, b: seq<Event>)
    ensures Run(l, a + b) == (match Run(l, a) case None => None case Some(m) => Run(m, b))
  {
    if b == [] {
      Sequences.ConcatEmpty(a);
    } else {
      var short := b[..|b| - 1];
      RunConcat(l, a, short);
      RunSnoc(l, a + short, b[|b| - 1]);
      Sequences.LastMoved(a, b);
      if Run(l, a).Some? {
        assert Run(Run(l, a).value, b) ==
               match Run(Run(l, a).value, short) case None => None case Some(m) => Advance(m, b[|b| - 1]);
      }
    }
  }

  predicate AcceptedSoFar(es: seq<Event>) {
    Run(Initial, es).Some?
  }

  predicate Accepted(es: seq<Event>) {
    Run(Initial, es).Some? && Run(Initial, es).value.phase == Complete
  }

  // ---------- Assembly ----------

  /** A content block as a client holds it: what opened it, and the deltas that followed, in order. */
  datatype Block = Block(head: Head, deltas: seq<Delta>)

  datatype Message = Message(
    id: string, model: string, blocks: seq<Block>,
    stopReason: Option<string>, inputTokens: nat, outputTokens: nat)

  const EmptyMessage := Message("", "", [], None, 0, 0)

  function Observe(m: Message, e: Event): Message {
    match e
    case MessageStart(id, model, inputTokens) => m.(id := id, model := model, inputTokens := inputTokens)
    case BlockStart(_, head) => m.(blocks := m.blocks + [Block(head, [])])
    case BlockDelta(_, delta) =>
      if m.blocks == [] then m
      else
        var last := |m.blocks| - 1;
        m.(blocks := m.blocks[last := m.blocks[last].(deltas := m.blocks[last].deltas + [delta])])
    case MessageDelta(stopReason, inputTokens, outputTokens) =>
      m.(stopReason := stopReason, inputTokens := inputTokens, outputTokens := outputTokens)
    case _ => m
  }

  function Assemble(m: Message, es: seq<Event>): Message {
    if es == [] then m else Observe(Assemble(m, es[..|es| - 1]), es[|es| - 1])
  }

  lemma AssembleSnoc(m: Message, es: seq<Event>, e: Event)
    ensures Assemble(m, es + [e]) == Observe(Assemble(m, es), e)
  {
    Sequences.Snoc(es, e);
  }

  lemma {:induction false} AssembleConcat(m: Message, a: seq<Event>, b: seq<Event>)
    ensures Assemble(m, a + b) == Assemble(Assemble(m, a), b)
  {
    if b == [] {
      Sequences.ConcatEmpty(a);
    } else {
      AssembleConcat(m, a, b[..|b| - 1]);
      AssembleSnoc(m, a + b[..|b| - 1], b[|b| - 1]);
      Sequences.LastMoved(a, b);
    }
  }

  // What the deltas of one block add up to.

  function TextOf(ds: seq<Delta>): string {
    if ds == [] then ""
    else TextOf(ds[..|ds| - 1]) + (match ds[|ds| - 1] case TextDelta(t) => t case _ => "")
  }

  function ThinkingOf(ds: seq<Delta>): string {
    if ds == [] then ""
    else ThinkingOf(ds[..|ds| - 1]) + (match ds[|ds| - 1] case ThinkingDelta(t) => t case _ => "")
  }

  function SignatureOf(ds: seq<Delta>): string {
    if ds == [] then ""
    else SignatureOf(ds[..|ds| - 1]) + (match ds[|ds| - 1] case SignatureDelta(t) => t case _ => "")
  }

  function JsonOf(ds: seq<Delta>): string {
    if ds == [] then ""
    else JsonOf(ds[..|ds| - 1]) + (match ds[|ds| - 1] case InputJsonDelta(t) => t case _ => "")
  }

  // ---------- Grammar ----------

  function WithoutPings(es: seq<Event>): seq<Event> {
    if es == [] then []
    else WithoutPings(es[..|es| - 1]) + (if es[|es| - 1].Ping? then [] else [es[|es| - 1]])
  }

  function Deltas(index: nat, ds: seq<Delta>): seq<Event> {
    seq(|ds|, i requires 0 <= i < |ds| => BlockDelta(index, ds[i]))
  }

  /** The events of complete blocks, numbered from zero. */
  function Blocks(blocks: seq<Block>): seq<Event> {
    if blocks == [] then []
    else
      var index := |blocks| - 1;
      Blocks(blocks[..index]) + BlockEvents(index, blocks[index])
  }

  function BlockEvents(index: nat, b: Block): seq<Event> {
    [BlockStart(index, b.head)] + Deltas(index, b.deltas) + [BlockStop(index)]
  }

  /** message_start, complete blocks numbered 0, 1, 2, ..., message_delta, message_stop. */
  ghost predicate Grammatical(es: seq<Event>, start: Event, blocks: seq<Block>, end: Event) {
    && start.MessageStart?
    && end.MessageDelta?
    && |blocks| <= MAX_INDEX
    && es == [start] + Blocks(blocks) + [end, MessageStop]
  }

  ghost predicate IsMessage(es: seq<Event>) {
    && es != []
    && es[|es| - 1] == MessageStop
    && exists start, blocks, end :: Grammatical(WithoutPings(es), start, blocks, end)
  }

  /** What a stream accepted so far looks like once its pings are removed. */
  ghost function Expected(l: Life, blocks: seq<Block>, start: Event, end: Event): seq<Event>
    requires Sized(l, blocks)
  {
    match l.phase
    case AwaitMessageStart => []
    case Streaming =>
      if l.open.None? then [start] + Blocks(blocks)
      else
        [start] + Blocks(blocks[..l.next])
        + [BlockStart(l.next, blocks[l.next].head)] + Deltas(l.next, blocks[l.next].deltas)
    case AfterMessageDelta => [start] + Blocks(blocks) + [end]
    case Complete => [start] + Blocks(blocks) + [end, MessageStop]
    case Failed => []
  }

  /** The acceptor's counters against the blocks assembled so far. */
  ghost predicate Sized(l: Life, blocks: seq<Block>) {
    && |blocks| == l.next + (if l.open.Some? then 1 else 0)
    && l.next <= MAX_INDEX
    && (l.open.Some? ==> l.open == Some(l.next) && l.phase in {Streaming, Failed})
    && (l.phase == AwaitMessageStart ==> blocks == [])
  }

  lemma {:induction false} AcceptedShape(es: seq<Event>) returns (start: Event, end: Event)
    requires AcceptedSoFar(es)
    ensures start.MessageStart? && end.MessageDelta?
    ensures
      var l, m := Run(Initial, es).value, Assemble(EmptyMessage, es);
      && Sized(l, m.blocks)
      && (l.phase != Failed ==> WithoutPings(es) == Expected(l, m.blocks, start, end))
      && (l.phase == Complete ==> es != [] && es[|es| - 1] == MessageStop)
  {
    if es == [] {
      start, end := MessageStart("", "", 0), MessageDelta(None, 0, 0);
    } else {
      var before, e := es[..|es| - 1], es[|es| - 1];
      start, end := AcceptedShape(before);
      start, end := ExpectedStep(Run(Initial, before).value, Assemble(EmptyMessage, before), e, start, end);
    }
  }

  lemma ExpectedStep(l: Life, m: Message, e: Event, start: Event, end: Event) returns (start': Event, end': Event)
    requires Sized(l, m.blocks) && start.MessageStart? && end.MessageDelta?
    requires Advance(l, e).Some?
    ensures start'.MessageStart? && end'.MessageDelta?
    ensures
      var l', m' := Advance(l, e).value, Observe(m, e);
      && Sized(l', m'.blocks)
      && (l.phase == Failed ==> l'.phase == Failed)
      && (l'.phase == Complete ==> e == MessageStop)
      && (l'.phase != Failed ==>
        Expected(l', m'.blocks, start', end')
        == Expected(l, m.blocks, start, end) + (if e.Ping? then [] else [e]))
  {
    start', end' := start, end;
    match e
    case MessageStart(_, _, _) =>
      start' := e;
    case MessageDelta(_, _, _) =>
      end' := e;
    case BlockStart(_, head) =>
      OpeningExtends(l, m.blocks, head, start, end);
    case BlockDelta(_, delta) =>
      DeltaExtends(l, m.blocks, delta, start, end);
    case BlockStop(_) =>
      StopExtends(l, m.blocks, start, end);
    case _ =>
  }

  lemma StopExtends(l: Life, blocks: seq<Block>, start: Event, end: Event)
    requires Sized(l, blocks) && l.phase == Streaming && l.open.Some? && l.next < MAX_INDEX
    ensures
      var closed := l.(open := None, next := l.next + 1);
      && Sized(closed, blocks)
      && Expected(closed, blocks, start, end) == Expected(l, blocks, start, end) + [BlockStop(l.next)]
  {
    var b := blocks[l.next];
    Regroup([start], Blocks(blocks[..l.next]), BlockStart(l.next, b.head), Deltas(l.next, b.deltas), BlockStop(l.next));
    assert Blocks(blocks) == Blocks(blocks[..l.next]) + BlockEvents(l.next, b);
  }

  lemma Regroup(a: seq<Event>, b: seq<Event>, x: Event, c: seq<Event>, y: Event)
    ensures a + (b + ([x] + c + [y])) == a + b + [x] + c + [y]
  {
  }

  lemma OpeningExtends(l: Life, blocks: seq<Block>, head: Head, start: Event, end: Event)
    requires Sized(l, blocks) && l.phase == Streaming && l.open.None?
    ensures
      var longer, begun := blocks + [Block(head, [])], l.(open := Some(l.next));
      && Sized(begun, longer)
      && Expected(begun, longer, start, end) == Expected(l, blocks, start, end) + [BlockStart(l.next, head)]
  {
    assert (blocks + [Block(head, [])])[..l.next] == blocks;
    assert Deltas(l.next, []) == [];
  }

  lemma DeltaExtends(l: Life, blocks: seq<Block>, delta: Delta, start: Event, end: Event)
    requires Sized(l, blocks) && l.phase == Streaming && l.open.Some?
    ensures
      var b := blocks[l.next];
      var grown := blocks[l.next := b.(deltas := b.deltas + [delta])];
      && Sized(l, grown)
      && Expected(l, grown, start, end) == Expected(l, blocks, start, end) + [BlockDelta(l.next, delta)]
  {
    var b := blocks[l.next];
    assert blocks[l.next := b.(deltas := b.deltas + [delta])][..l.next] == blocks[..l.next];
    assert Deltas(l.next, b.deltas + [delta]) == Deltas(l.next, b.deltas) + [BlockDelta(l.next, delta)];
  }

  /** Complete blocks, started from a fresh message, are accepted and assemble to themselves. */
  lemma {:induction false} BlocksRun(m: Message, blocks: seq<Block>)
    requires m.blocks == [] && |blocks| <= MAX_INDEX
    ensures Run(Life(Streaming, None, 0), Blocks(blocks)) == Some(Life(Streaming, None, |blocks|))
    ensures Assemble(m, Blocks(blocks)) == m.(blocks := blocks)
  {
    if blocks == [] {
    } else {
      var n := |blocks| - 1;
      var rest, b := blocks[..n], blocks[n];
      BlocksRun(m, rest);
      var one := BlockEvents(n, b);
      OneBlockRun(Life(Streaming, None, n), m.(blocks := rest), b);
      RunConcat(Life(Streaming, None, 0), Blocks(rest), one);
      AssembleConcat(m, Blocks(rest), one);
      assert rest + [b] == blocks;
    }
  }

  lemma OneBlockRun(l: Life, m: Message, b: Block)
    requires l == Life(Streaming, None, l.next) && l.next < MAX_INDEX
    ensures Run(l, BlockEvents(l.next, b)) == Some(l.(next := l.next + 1))
    ensures Assemble(m, BlockEvents(l.next, b)) == m.(blocks := m.blocks + [b])
  {
    OpenBlockRun(l, m, b, b.deltas);
    LastStopRuns(l, [BlockStart(l.next, b.head)] + Deltas(l.next, b.deltas));
    LastStopAssembles(m, [BlockStart(l.next, b.head)] + Deltas(l.next, b.deltas), l.next);
  }

  lemma LastStopRuns(l: Life, es: seq<Event>)
    requires l.next < MAX_INDEX && Run(l, es) == Some(Life(Streaming, Some(l.next), l.next))
    ensures Run(l, es + [BlockStop(l.next)]) == Some(Life(Streaming, None, l.next + 1))
  {
    RunSnoc(l, es, BlockStop(l.next));
  }

  lemma LastStopAssembles(m: Message, es: seq<Event>, index: nat)
    ensures Assemble(m, es + [BlockStop(index)]) == Assemble(m, es)
  {
    AssembleSnoc(m, es, BlockStop(index));
  }

  lemma {:induction false} OpenBlockRun(l: Life, m: Message, b: Block, ds: seq<Delta>)
    requires l == Life(Streaming, None, l.next)
    ensures
      var es := [BlockStart(l.next, b.head)] + Deltas(l.next, ds);
      && Run(l, es) == Some(l.(open := Some(l.next)))
      && Assemble(m, es) == m.(blocks := m.blocks + [Block(b.head, ds)])
  {
    if ds == [] {
      Sequences.ConcatEmpty([BlockStart(l.next, b.head)]);
      RunSnoc(l, [], BlockStart(l.next, b.head));
      AssembleSnoc(m, [], BlockStart(l.next, b.head));
    } else {
      var short, d := ds[..|ds| - 1], BlockDelta(l.next, ds[|ds| - 1]);
      OpenBlockRun(l, m, b, short);
      LastDelta([BlockStart(l.next, b.head)], l.next, ds);
      var es := [BlockStart(l.next, b.head)] + Deltas(l.next, short);
      RunSnoc(l, es, d);
      AssembleSnoc(m, es, d);
      Sequences.Unsnoc(ds);
    }
  }

  lemma LastDelta(front: seq<Event>, index: nat, ds: seq<Delta>)
    requires ds != []
    ensures front + Deltas(index, ds) == front + Deltas(index, ds[..|ds| - 1]) + [BlockDelta(index, ds[|ds| - 1])]
  {
  }

  /** Pings may be put back anywhere before the stream ends. */
  lemma {:induction false} PingsMayBeInserted(es: seq<Event>)
    requires Run(Initial, WithoutPings(es)).Some?
    requires
      || Run(Initial, WithoutPings(es)).value.phase !in {Complete, Failed}
      || (es != [] && !es[|es| - 1].Ping?)
    ensures Run(Initial, es) == Run(Initial, WithoutPings(es))
  {
    if es != [] {
      var before, e := es[..|es| - 1], es[|es| - 1];
      if e.Ping? {
        assert WithoutPings(es) == WithoutPings(before);
      } else {
        RunSnoc(Initial, WithoutPings(before), e);
      }
      PingsMayBeInserted(before);
    }
  }

  lemma GrammaticalIsAccepted(core: seq<Event>, start: Event, blocks: seq<Block>, end: Event)
    requires Grammatical(core, start, blocks, end)
    ensures Accepted(core)
    ensures Assemble(EmptyMessage, core).blocks == blocks
  {
    assert [start] == [] + [start];
    RunSnoc(Initial, [], start);
    AssembleSnoc(EmptyMessage, [], start);
    var m := Observe(EmptyMessage, start);
    BlocksRun(m, blocks);
    RunConcat(Initial, [start], Blocks(blocks));
    AssembleConcat(EmptyMessage, [start], Blocks(blocks));
    var body := [start] + Blocks(blocks);
    RunSnoc(Initial, body, end);
    AssembleSnoc(EmptyMessage, body, end);
    RunSnoc(Initial, body + [end], MessageStop);
    AssembleSnoc(EmptyMessage, body + [end], MessageStop);
    assert core == body + [end] + [MessageStop];
  }

  /** The acceptor completes on exactly the streams the grammar describes. */
  lemma AcceptedIffMessage(es: seq<Event>)
    ensures Accepted(es) <==> IsMessage(es)
    ensures Accepted(es) ==> exists start, end ::
      Grammatical(WithoutPings(es), start, Assemble(EmptyMessage, es).blocks, end)
  {
    if Accepted(es) {
      var start, end := AcceptedShape(es);
      assert Grammatical(WithoutPings(es), start, Assemble(EmptyMessage, es).blocks, end);
    }
    if IsMessage(es) {
      var start, blocks, end :| Grammatical(WithoutPings(es), start, blocks, end);
      GrammaticalIsAccepted(WithoutPings(es), start, blocks, end);
      PingsMayBeInserted(es);
    }
  }
}
