/** Rewriting the stream of a whole message, whatever its blocks, against rewriting the message. */
module DsmlMessage {
  import opened Wrappers
  import Sequences
  import opened MessageStream
  import opened DsmlText
  import opened DsmlLocality
  import opened DsmlRewriter
  import opened DsmlRefinement
  import opened DsmlStream
  import opened DsmlStranding
  import opened DsmlBody

  /** A block of a message: text that may come cut into deltas in any way, or a block of another kind. */
  datatype Part = Text(text: string) | Other(block: Block)

  ghost predicate AllText(ds: seq<Delta>) {
    forall d | d in ds :: d.TextDelta?
  }

  ghost predicate CutOf(part: Part, b: Block) {
    match part
    case Text(text) => b.head == TextHead("") && AllText(b.deltas) && TextOf(b.deltas) == text
    case Other(block) => b == block && !block.head.TextHead?
  }

  ghost predicate CutsOf(parts: seq<Part>, blocks: seq<Block>) {
    |blocks| == |parts| && forall i | 0 <= i < |parts| :: CutOf(parts[i], blocks[i])
  }

  function Streamed(start: Event, blocks: seq<Block>, end: Event): seq<Event> {
    [start] + Blocks(blocks) + [end, MessageStop]
  }

  // ---------- Runs of events ----------

  lemma {:induction false} DeltasPass(c: Config, st: Rewriter, i: nat, ds: seq<Delta>)
    requires !st.curIsText && st.curOut.Some?
    ensures OnEvents(c, st, Deltas(i, ds)) == Step(st, Deltas(st.curOut.value, ds), [])
  {
    if ds != [] {
      var index, short, last := st.curOut.value, ds[..|ds| - 1], ds[|ds| - 1];
      DeltasPass(c, st, i, short);
      LastOfDeltas(i, ds);
      LastOfDeltas(index, ds);
      OnEventsSnoc(c, st, Deltas(i, short), BlockDelta(i, last));
    }
  }

  lemma OnEventsOne(c: Config, st: Rewriter, e: Event)
    ensures OnEvents(c, st, [e]) == OnEvent(c, st, e)
  {
    OnEventsSnoc(c, st, [], e);
    Sequences.ConcatEmpty([e]);
    Sequences.ConcatEmpty(OnEvent(c, st, e).out);
    Sequences.ConcatEmpty(OnEvent(c, st, e).pieces);
  }

  /** Three runs in a row. */
  lemma ThreeRuns(c: Config, st: Rewriter, a: seq<Event>, b: seq<Event>, d: seq<Event>)
    ensures
      var x := OnEvents(c, st, a);
      var y := OnEvents(c, x.st, b);
      var z := OnEvents(c, y.st, d);
      OnEvents(c, st, a + b + d) == After(After(x, y), z)
  {
    OnEventsConcat(c, st, a, b);
    OnEventsConcat(c, st, a + b, d);
  }

  // ---------- Between two blocks ----------

  /** No block is open and nothing captured; a few characters may be held back. */
  ghost predicate Between(st: Rewriter) {
    && st.mode == Pass && st.cap == "" && st.curOut.None? && (st.scan != "" ==> st.curIsText)
    && |st.scan| < MAX_OPEN && FindOpen(st.scan).None?
  }

  /** Between two blocks, those sent come to `r`. */
  ghost predicate Boundary(r: Rewriting, m: Message, st: Rewriter) {
    Holds(r, m.blocks, st) && Between(st)
  }

  function AsSent(m: Message, st: Rewriter): Rewriting {
    Rewriting(Contents(m.blocks), st.synthesized, st.toolCount)
  }

  /** Text held back when another block begins comes out at the end of that one. */
  function Touched(b: Block, held: string): Block {
    if held == "" then b else b.(deltas := b.deltas + [TextDelta(held)])
  }

  lemma TouchedEvents(n: nat, b: Block, held: string)
    ensures
      [BlockStart(n, b.head)] + Deltas(n, b.deltas)
      + ((if held == "" then [] else [BlockDelta(n, TextDelta(held))]) + [BlockStop(n)])
      == BlockEvents(n, Touched(b, held))
  {
  }

  lemma StopTouches(st: Rewriter, n: nat)
    requires st.mode == Pass && st.curOut == Some(n)
    ensures
      var stop := OnBlockStop(st);
      && stop.st == st.(scan := "", curOut := None)
      && stop.out == (if st.scan == "" then [] else [BlockDelta(n, TextDelta(st.scan))]) + [BlockStop(n)]
  {
  }

  lemma OtherPasses(c: Config, st: Rewriter, i: nat, b: Block)
    requires !b.head.TextHead? && st.mode == Pass && st.curOut.None?
    ensures
      var s := OnEvents(c, st, BlockEvents(i, b));
      && s.out == BlockEvents(st.nextOut, Touched(b, st.scan))
      && s.st == st.(nextOut := st.nextOut + 1, curIsText := false, scan := "")
  {
    var n := st.nextOut;
    var begun := st.(nextOut := n + 1, curOut := Some(n), curIsText := false);
    OnEventsOne(c, st, BlockStart(i, b.head));
    DeltasPass(c, begun, i, b.deltas);
    OnEventsOne(c, begun, BlockStop(i));
    ThreeRuns(c, st, [BlockStart(i, b.head)], Deltas(i, b.deltas), [BlockStop(i)]);
    ThreeOutputs(Step(begun, [BlockStart(n, b.head)], []), Step(begun, Deltas(n, b.deltas), []), OnBlockStop(begun));
    StopTouches(begun, n);
    TouchedEvents(n, b, st.scan);
  }

  lemma ThreeOutputs(x: Step, y: Step, z: Step)
    ensures After(After(x, y), z).out == x.out + y.out + z.out && After(After(x, y), z).st == z.st
  {
  }

  lemma BlockAssembles(m: Message, n: nat, b: Block)
    ensures Assemble(m, BlockEvents(n, b)) == m.(blocks := m.blocks + [b])
  {
    OpenBlockRun(Life(Streaming, None, n), m, b, b.deltas);
    LastStopAssembles(m, [BlockStart(n, b.head)] + Deltas(n, b.deltas), n);
  }

  /** After a block that is not text. */
  function With(r: Rewriting, x: Content): Rewriting {
    r.(content := r.content + [x])
  }

  lemma OtherRuns(c: Config, r: Rewriting, m: Message, st: Rewriter, i: nat, b: Block)
    requires Boundary(r, m, st) && !b.head.TextHead?
    ensures
      var s := OnEvents(c, st, BlockEvents(i, b));
      var m' := Assemble(m, s.out);
      && m' == m.(blocks := m'.blocks)
      && Boundary(With(r, ContentOf(Touched(b, st.scan))), m', s.st)
      && s.st.scan == ""
  {
    var b' := Touched(b, st.scan);
    OtherPasses(c, st, i, b);
    NothingFound();
    BlockAssembles(m, st.nextOut, b');
    ContentsSnoc(m.blocks, b');
    JoinedSnoc(Contents(m.blocks), ContentOf(b'));
    JoinedSnoc(r.content, ContentOf(b'));
  }

  // ---------- A text block ----------

  function Begun(st: Rewriter): Rewriter {
    st.(nextOut := st.nextOut + 1, curOut := Some(st.nextOut), curIsText := true)
  }

  /** A text block's deltas, and then its end. */
  ghost function Fed(c: Config, st: Rewriter, i: nat, ds: seq<Delta>): Step {
    OnEvents(c, Begun(st), Deltas(i, ds))
  }

  ghost function Stopped(c: Config, st: Rewriter, i: nat, ds: seq<Delta>): Step {
    After(Fed(c, st, i, ds), OnBlockStop(Fed(c, st, i, ds).st))
  }

  /** The segments that came out. */
  ghost function Found(c: Config, st: Rewriter, i: nat, ds: seq<Delta>): seq<Segment> {
    PushPieces([], Stopped(c, st, i, ds).pieces)
  }

  /** The segments found when the deltas are over, with the text still held. */
  ghost function Total(s: Step): seq<Segment> {
    PushText(PushPieces([], s.pieces), Held(s.st))
  }

  lemma BeginShows(c: Config, r: Rewriting, m: Message, st: Rewriter)
    requires Boundary(r, m, st)
    ensures
      var m' := Observe(m, BlockStart(st.nextOut, TextHead("")));
      Shows(c, r, m'.blocks, [], Begun(st)) && m' == m.(blocks := m'.blocks)
  {
    var b := Block(TextHead(""), []);
    ContentsSnoc(m.blocks, b);
    JoinedSnoc(Contents(m.blocks), ContentOf(b));
    Sequences.ConcatEmpty(r.content);
  }

  /** Whatever the text, the blocks sent show what was found. */
  lemma {:induction false} FedShows(c: Config, r: Rewriting, m: Message, st: Rewriter, i: nat, ds: seq<Delta>)
    requires Shows(c, r, m.blocks, [], Begun(st)) && Between(st) && AllText(ds)
    ensures StepShows(c, r, m, [], Fed(c, st, i, ds))
    ensures Settled(Fed(c, st, i, ds).st) && HasRead(st.scan + TextOf(ds), Fed(c, st, i, ds).st)
  {
    if ds == [] {
      QuietShows(c, r, m, [], Begun(st));
      HasReadHeld(st);
    } else {
      var short, text := ds[..|ds| - 1], ds[|ds| - 1].text;
      assert ds[|ds| - 1] in ds;
      FedShows(c, r, m, st, i, short);
      var s := Fed(c, st, i, short);
      DsmlStream.LastDelta(c, Begun(st), i, ds);
      LastText(c, r, m, s, text);
      TextHasRead(c, st.scan + TextOf(short), s.st, text);
      Sequences.Associate(st.scan, TextOf(short), text);
    }
  }

  lemma HasReadHeld(st: Rewriter)
    requires Between(st)
    ensures HasRead(st.scan + "", Begun(st))
  {
    Sequences.ConcatEmpty(st.scan);
    assert st.scan[0..] == st.scan;
    assert PassingSince(st.scan, 0, Begun(st));
  }

  /** A delta with nothing after it is dealt with as the one-shot segmentation would. */
  lemma LastText(c: Config, r: Rewriting, m: Message, s: Step, text: string)
    requires StepShows(c, r, m, [], s) && Settled(s.st)
    ensures
      var next := After(s, OnText(c, s.st, text));
      && StepShows(c, r, m, [], next) && Settled(next.st)
      && Divide(c.parse, PushPieces([], s.pieces), Held(s.st) + text) == Total(next)
  {
    var acc, step := PushPieces([], s.pieces), OnText(c, s.st, text);
    TextAdvances(c, s.st, acc, text, "");
    TextShows(c, r, Assemble(m, s.out), acc, s.st, text);
    AfterShows(c, r, m, [], s, step);
    PushPiecesConcat([], s.pieces, step.pieces);
    Sequences.ConcatEmpty(Held(s.st) + text);
    Sequences.ConcatEmpty(Held(step.st));
  }

  lemma TextBlockEvents(c: Config, st: Rewriter, i: nat, ds: seq<Delta>)
    requires st.mode == Pass && st.curOut.None?
    ensures
      OnEvents(c, st, BlockEvents(i, Block(TextHead(""), ds)))
      == After(Step(Begun(st), [BlockStart(st.nextOut, TextHead(""))], []), Stopped(c, st, i, ds))
  {
    OnEventsOne(c, st, BlockStart(i, TextHead("")));
    var begun, fed := Begun(st), Fed(c, st, i, ds);
    OnEventsOne(c, fed.st, BlockStop(i));
    ThreeRuns(c, st, [BlockStart(i, TextHead(""))], Deltas(i, ds), [BlockStop(i)]);
    AfterAssociates(Step(begun, [BlockStart(st.nextOut, TextHead(""))], []), fed, OnBlockStop(fed.st));
  }

  /** After a text block: what was found has come out, except text that no block was open for. */
  ghost predicate Ended(c: Config, r: Rewriting, m: Message, st: Rewriter, ds: seq<Delta>, s: Step, fed: Step, found: seq<Segment>) {
    var m' := Assemble(m, s.out);
    && m' == m.(blocks := m'.blocks)
    && Boundary(Segmented(c, r, found), m', s.st)
    && PushText(found, s.st.scan) == Total(fed)
    && s.st.scan == Left(fed.st) && CanLeave(st.scan + TextOf(ds), s.st.scan)
  }

  lemma TextStops(c: Config, r: Rewriting, m: Message, st: Rewriter, i: nat, ds: seq<Delta>)
    requires Shows(c, r, m.blocks, [], Begun(st)) && Between(st) && AllText(ds)
    ensures
      var fed, s := Fed(c, st, i, ds), Stopped(c, st, i, ds);
      && StepShows(c, r, m, [], s) && Between(s.st)
      && PushText(Found(c, st, i, ds), s.st.scan) == Total(fed)
      && s.st.scan == Left(fed.st) && CanLeave(st.scan + TextOf(ds), s.st.scan)
  {
    var fed := Fed(c, st, i, ds);
    FedShows(c, r, m, st, i, ds);
    LeftCanBe(st.scan + TextOf(ds), fed.st);
    StopShows(c, r, Assemble(m, fed.out), PushPieces([], fed.pieces), fed.st);
    AfterShows(c, r, m, [], fed, OnBlockStop(fed.st));
    PushPiecesConcat([], fed.pieces, OnBlockStop(fed.st).pieces);
  }

  lemma TextRuns(c: Config, r: Rewriting, m: Message, st: Rewriter, i: nat, ds: seq<Delta>)
    requires Boundary(r, m, st) && AllText(ds)
    ensures
      Ended(c, r, m, st, ds, OnEvents(c, st, BlockEvents(i, Block(TextHead(""), ds))), Fed(c, st, i, ds), Found(c, st, i, ds))
  {
    var begin := BlockStart(st.nextOut, TextHead(""));
    BeginShows(c, r, m, st);
    TextStops(c, r, Observe(m, begin), st, i, ds);
    TextBlockEvents(c, st, i, ds);
    AssembleOne(m, begin);
    AssembleConcat(m, [begin], Stopped(c, st, i, ds).out);
  }

  /** The segments of a roomy text, with what was held back before it, are all found, however it is cut. */
  lemma RoomyIsFound(c: Config, r: Rewriting, m: Message, st: Rewriter, i: nat, ds: seq<Delta>)
    requires Boundary(r, m, st) && AllText(ds) && Roomy(c.parse, st.scan + TextOf(ds))
    ensures Total(Fed(c, st, i, ds)) == Divide(c.parse, [], st.scan + TextOf(ds))
  {
    BeginShows(c, r, m, st);
    Sequences.ConcatEmpty(st.scan + TextOf(ds));
    DeltasRun(c, r, Observe(m, BlockStart(st.nextOut, TextHead(""))), Begun(st), i, ds, "");
    Sequences.ConcatEmpty(Held(Fed(c, st, i, ds).st));
  }

  // ---------- The same pieces after the same content ----------

  /** The regions of a text taken one at a time. */
  ghost function PiecesOf(parse: Parser, text: string): seq<Piece>
    decreases |text|
  {
    match Split(text)
    case None => [Said(text)]
    case Some(p) => [Said(p.front), RegionPiece(parse, p.region)] + PiecesOf(parse, p.rest)
  }

  function RegionPiece(parse: Parser, region: string): Piece {
    if parse(region) == [] then Said(region) else Called(region, parse(region))
  }

  lemma {:induction false} DivideIsPieces(parse: Parser, acc: seq<Segment>, text: string)
    ensures Divide(parse, acc, text) == PushPieces(acc, PiecesOf(parse, text))
    decreases |text|
  {
    match Split(text)
    case None =>
      PushOne(acc, Said(text));
    case Some(p) =>
      var front, region := Said(p.front), RegionPiece(parse, p.region);
      DivideIsPieces(parse, PushRegion(parse, PushText(acc, p.front), p.region), p.rest);
      PushTwo(acc, front, region);
      PushPiecesConcat(acc, [front, region], PiecesOf(parse, p.rest));
  }

  lemma PushTwo(acc: seq<Segment>, a: Piece, b: Piece)
    ensures PushPieces(acc, [a, b]) == PushPiece(PushPiece(acc, a), b)
  {
    assert [a, b] == [a] + [b];
    PushPiecesConcat(acc, [a], [b]);
    PushOne(acc, a);
    PushOne(PushPiece(acc, a), b);
  }

  /** Segments after some content, and others after other content, come to the same. */
  ghost predicate SameSegmented(c: Config, r: Rewriting, acc: seq<Segment>, r': Rewriting, acc': seq<Segment>) {
    SameOnceJoined(Segmented(c, r, acc), Segmented(c, r', acc'))
  }

  lemma SameTextPushed(c: Config, r: Rewriting, acc: seq<Segment>, r': Rewriting, acc': seq<Segment>, text: string)
    requires SameSegmented(c, r, acc, r', acc')
    ensures SameSegmented(c, r, PushText(acc, text), r', PushText(acc', text))
  {
    SegmentedPushText(c, r, acc, text);
    SegmentedPushText(c, r', acc', text);
  }

  lemma SameCallPushed(c: Config, r: Rewriting, acc: seq<Segment>, r': Rewriting, acc': seq<Segment>, call: Call)
    requires SameSegmented(c, r, acc, r', acc')
    ensures SameSegmented(c, r, acc + [ToolSegment(call)], r', acc' + [ToolSegment(call)])
  {
    SegmentedIs(c, r, acc);
    SegmentedIs(c, r', acc');
    var n := r.tools + CountTools(acc) + 1;
    SegmentedPushTool(c, r, acc, call, n);
    SegmentedPushTool(c, r', acc', call, n);
    NumberedSnoc(c, acc, 0, ToolSegment(call));
    NumberedSnoc(c, acc', 0, ToolSegment(call));
  }

  lemma {:induction false} SameCallsPushed(
      c: Config, r: Rewriting, acc: seq<Segment>, r': Rewriting, acc': seq<Segment>, calls: seq<Call>, n: nat)
    requires SameSegmented(c, r, acc, r', acc') && n <= |calls|
    ensures SameSegmented(c, r, acc + Tools(calls[..n]), r', acc' + Tools(calls[..n]))
  {
    if n == 0 {
      assert acc + Tools(calls[..0]) == acc && acc' + Tools(calls[..0]) == acc';
    } else {
      SameCallsPushed(c, r, acc, r', acc', calls, n - 1);
      SameCallPushed(c, r, acc + Tools(calls[..n - 1]), r', acc' + Tools(calls[..n - 1]), calls[n - 1]);
      ToolsSnoc(acc, calls, n);
      ToolsSnoc(acc', calls, n);
    }
  }

  lemma {:induction false} SamePiecesPushed(
      c: Config, r: Rewriting, acc: seq<Segment>, r': Rewriting, acc': seq<Segment>, pieces: seq<Piece>)
    requires SameSegmented(c, r, acc, r', acc')
    ensures SameSegmented(c, r, PushPieces(acc, pieces), r', PushPieces(acc', pieces))
  {
    if pieces != [] {
      var short, last := pieces[..|pieces| - 1], pieces[|pieces| - 1];
      SamePiecesPushed(c, r, acc, r', acc', short);
      match last
      case Said(text) =>
        SameTextPushed(c, r, PushPieces(acc, short), r', PushPieces(acc', short), text);
      case Called(_, calls) =>
        SameCallsPushed(c, r, PushPieces(acc, short), r', PushPieces(acc', short), calls, |calls|);
        assert calls[..|calls|] == calls;
    }
  }

  /** Text after some content is the same as content that ends with it. */
  lemma SameAfterText(c: Config, r: Rewriting, plan: Rewriting, held: string, text: string)
    requires Joined(plan.content) == Join(Joined(r.content), TextContent(held))
    requires plan.tools == r.tools && plan.changed == r.changed
    ensures SameSegmented(c, r, Divide(c.parse, PushText([], held), text), plan, Divide(c.parse, [], text))
  {
    SegmentedPushText(c, r, [], held);
    Sequences.ConcatEmpty(r.content);
    Sequences.ConcatEmpty(plan.content);
    DivideIsPieces(c.parse, PushText([], held), text);
    DivideIsPieces(c.parse, [], text);
    SamePiecesPushed(c, r, PushText([], held), plan, [], PiecesOf(c.parse, text));
  }

  // ---------- Block by block ----------

  ghost function Planned(c: Config, parts: seq<Part>): Rewriting {
    if parts == [] then Rewriting([], false, 0) else PlanPart(c, Planned(c, parts[..|parts| - 1]), parts[|parts| - 1])
  }

  /** A text gives way to its segments; other blocks stay. */
  ghost function PlanPart(c: Config, before: Rewriting, part: Part): Rewriting {
    match part
    case Text(text) => Segmented(c, before, Segments(text, c.parse))
    case Other(block) => With(before, ContentOf(block))
  }

  /** The rewriter after message_start and some blocks. */
  ghost function Upto(c: Config, start: Event, blocks: seq<Block>): Step {
    OnEvents(c, Idle, [start] + Blocks(blocks))
  }

  ghost function Sent(c: Config, start: Event, blocks: seq<Block>): Message {
    Assemble(EmptyMessage, Upto(c, start, blocks).out)
  }

  lemma UptoNothing(c: Config, start: Event)
    requires start.MessageStart?
    ensures Upto(c, start, []).st == Idle && Sent(c, start, []) == Observe(EmptyMessage, start)
  {
    OnEventsOne(c, Idle, start);
    Sequences.ConcatEmpty([start]);
    AssembleOne(EmptyMessage, start);
  }

  lemma UptoNext(c: Config, start: Event, blocks: seq<Block>)
    requires blocks != []
    ensures
      var n := |blocks| - 1;
      var s := OnEvents(c, Upto(c, start, blocks[..n]).st, BlockEvents(n, blocks[n]));
      && Upto(c, start, blocks).st == s.st
      && Sent(c, start, blocks) == Assemble(Sent(c, start, blocks[..n]), s.out)
  {
    var n := |blocks| - 1;
    Sequences.Associate([start], Blocks(blocks[..n]), BlockEvents(n, blocks[n]));
    OnEventsConcat(c, Idle, [start] + Blocks(blocks[..n]), BlockEvents(n, blocks[n]));
    var before := Upto(c, start, blocks[..n]);
    AssembleConcat(EmptyMessage, before.out, OnEvents(c, before.st, BlockEvents(n, blocks[n])).out);
  }

  /** The blocks sent, and the text held back, come to `r`. */
  ghost predicate ComesTo(r: Rewriting, m: Message, st: Rewriter) {
    && Join(Joined(Contents(m.blocks)), TextContent(st.scan)) == Joined(r.content)
    && st.toolCount == r.tools && (st.synthesized <==> r.changed)
    && Between(st)
  }

  ghost predicate Envelope(m: Message, start: Event) {
    m == Observe(EmptyMessage, start).(blocks := m.blocks)
  }

  /** What some cut of these texts leaves held back when the next part begins. */
  ghost predicate CanHold(parts: seq<Part>, held: string)
    decreases |parts|
  {
    if parts == [] || parts[|parts| - 1].Other? then held == ""
    else
      var front, text := parts[..|parts| - 1], parts[|parts| - 1].text;
      exists before: string :: CanHold(front, before) && CanLeaveAfter(before, text, held)
  }

  ghost predicate CanLeaveAfter(before: string, text: string, held: string) {
    CanLeave(before + text, held)
  }

  /**
    A part may follow held-back text: a text, if the two divide together as they do apart and every region fits the
    capture buffer or is harmless; a block of another kind, only if nothing is held back.
   */
  ghost predicate MayFollow(parse: Parser, held: string, part: Part) {
    match part
    case Text(text) => Roomy(parse, held + text) && Divide(parse, [], held + text) == Divide(parse, PushText([], held), text)
    case Other(_) => held == ""
  }

  /** Text may follow what is held back where no opening tag starts in that, the text being roomy itself. */
  lemma UntaggedMayFollow(parse: Parser, held: string, text: string)
    requires Untagged(held, text) && Roomy(parse, text)
    ensures MayFollow(parse, held, Text(text))
  {
    DividePast(parse, [], held, text);
    RoomyPast(parse, held, text);
  }

  /** Every part may follow whatever can be held back when it begins. */
  ghost predicate Safe(parse: Parser, parts: seq<Part>) {
    forall n: nat, held: string | n < |parts| && CanHold(parts[..n], held) :: MayFollow(parse, held, parts[n])
  }

  lemma SafeBefore(parse: Parser, parts: seq<Part>)
    requires parts != [] && Safe(parse, parts)
    ensures Safe(parse, parts[..|parts| - 1])
  {
    var before := parts[..|parts| - 1];
    forall n: nat, held: string | n < |before| && CanHold(before[..n], held) ensures MayFollow(parse, held, before[n]) {
      assert before[..n] == parts[..n];
    }
  }

  lemma CutsBefore(parts: seq<Part>, blocks: seq<Block>)
    requires parts != [] && CutsOf(parts, blocks)
    ensures CutsOf(parts[..|parts| - 1], blocks[..|blocks| - 1]) && CutOf(parts[|parts| - 1], blocks[|blocks| - 1])
  {
  }

  /** A block of any kind, however it is cut, leaves the rewriter between blocks. */
  lemma PartEnds(c: Config, m: Message, st: Rewriter, i: nat, part: Part, b: Block)
    requires Between(st) && CutOf(part, b)
    ensures
      var s := OnEvents(c, st, BlockEvents(i, b));
      var m' := Assemble(m, s.out);
      && m' == m.(blocks := m'.blocks)
      && Between(s.st)
      && (if part.Text? then CanLeave(st.scan + part.text, s.st.scan) else s.st.scan == "")
  {
    match part
    case Text(_) =>
      assert b == Block(TextHead(""), b.deltas);
      TextRuns(c, AsSent(m, st), m, st, i, b.deltas);
    case Other(_) =>
      OtherRuns(c, AsSent(m, st), m, st, i, b);
  }

  /** Whatever the cuts. */
  lemma {:induction false} CutsHold(c: Config, start: Event, parts: seq<Part>, blocks: seq<Block>)
    requires start.MessageStart? && CutsOf(parts, blocks)
    ensures
      var st, m := Upto(c, start, blocks).st, Sent(c, start, blocks);
      Between(st) && Envelope(m, start) && CanHold(parts, st.scan)
  {
    if parts == [] {
      UptoNothing(c, start);
      NothingFound();
    } else {
      var n := |parts| - 1;
      CutsBefore(parts, blocks);
      CutsHold(c, start, parts[..n], blocks[..n]);
      UptoNext(c, start, blocks);
      PartEnds(c, Sent(c, start, blocks[..n]), Upto(c, start, blocks[..n]).st, n, parts[n], blocks[n]);
    }
  }

  /** One more text of which nothing is missed: its segments. */
  lemma TextFound(c: Config, plan: Rewriting, m: Message, st: Rewriter, i: nat, ds: seq<Delta>)
    requires ComesTo(plan, m, st) && AllText(ds)
    requires Total(Fed(c, st, i, ds)) == Divide(c.parse, PushText([], st.scan), TextOf(ds))
    ensures
      var s := OnEvents(c, st, BlockEvents(i, Block(TextHead(""), ds)));
      ComesTo(Segmented(c, plan, Segments(TextOf(ds), c.parse)), Assemble(m, s.out), s.st)
  {
    var r, text := AsSent(m, st), TextOf(ds);
    TextRuns(c, r, m, st, i, ds);
    var s := OnEvents(c, st, BlockEvents(i, Block(TextHead(""), ds)));
    SegmentedPushText(c, r, Found(c, st, i, ds), s.st.scan);
    SameAfterText(c, r, plan, st.scan, text);
    DivideIsSegments(c.parse, text);
  }

  /** One more text that may follow what is held back. */
  lemma TextKeeps(c: Config, plan: Rewriting, m: Message, st: Rewriter, i: nat, ds: seq<Delta>)
    requires ComesTo(plan, m, st) && AllText(ds) && MayFollow(c.parse, st.scan, Text(TextOf(ds)))
    ensures
      var s := OnEvents(c, st, BlockEvents(i, Block(TextHead(""), ds)));
      ComesTo(Segmented(c, plan, Segments(TextOf(ds), c.parse)), Assemble(m, s.out), s.st)
  {
    RoomyIsFound(c, AsSent(m, st), m, st, i, ds);
    TextFound(c, plan, m, st, i, ds);
  }

  lemma OtherKeeps(c: Config, plan: Rewriting, m: Message, st: Rewriter, i: nat, b: Block)
    requires ComesTo(plan, m, st) && st.scan == "" && !b.head.TextHead?
    ensures
      var s := OnEvents(c, st, BlockEvents(i, b));
      ComesTo(With(plan, ContentOf(b)), Assemble(m, s.out), s.st)
  {
    OtherRuns(c, AsSent(m, st), m, st, i, b);
    JoinedSnoc(Contents(m.blocks), ContentOf(b));
    JoinedSnoc(plan.content, ContentOf(b));
  }

  lemma PartKeeps(c: Config, plan: Rewriting, m: Message, st: Rewriter, i: nat, part: Part, b: Block)
    requires ComesTo(plan, m, st) && CutOf(part, b) && MayFollow(c.parse, st.scan, part)
    ensures
      var s := OnEvents(c, st, BlockEvents(i, b));
      ComesTo(PlanPart(c, plan, part), Assemble(m, s.out), s.st)
  {
    match part
    case Text(_) =>
      assert b == Block(TextHead(""), b.deltas);
      TextKeeps(c, plan, m, st, i, b.deltas);
    case Other(_) =>
      OtherKeeps(c, plan, m, st, i, b);
  }

  lemma {:induction false} PartsKeep(c: Config, start: Event, parts: seq<Part>, blocks: seq<Block>)
    requires start.MessageStart? && CutsOf(parts, blocks) && Safe(c.parse, parts)
    ensures ComesTo(Planned(c, parts), Sent(c, start, blocks), Upto(c, start, blocks).st)
  {
    if parts == [] {
      UptoNothing(c, start);
      NothingFound();
    } else {
      var n := |parts| - 1;
      SafeBefore(c.parse, parts);
      CutsBefore(parts, blocks);
      PartsKeep(c, start, parts[..n], blocks[..n]);
      CutsHold(c, start, parts[..n], blocks[..n]);
      UptoNext(c, start, blocks);
      PartKeeps(c, Planned(c, parts[..n]), Sent(c, start, blocks[..n]), Upto(c, start, blocks[..n]).st, n, parts[n], blocks[n]);
    }
  }

  // ---------- The end of the message ----------

  lemma FlushSays(st: Rewriter)
    requires st.mode == Pass && st.cap == "" && st.curOut.None?
    ensures
      var s := FlushPending(st);
      && s.st.mode == Pass && s.st.scan == "" && s.st.cap == "" && s.st.curOut.None? && s.st.synthesized == st.synthesized
      && s.out == (if st.scan == "" then []
                   else BlockEvents(st.nextOut, Block(TextHead(""), [TextDelta(st.scan)])))
  {
    if st.scan != "" {
      assert Deltas(st.nextOut, [TextDelta(st.scan)]) == [BlockDelta(st.nextOut, TextDelta(st.scan))];
    }
  }

  lemma FlushedJoins(m: Message, st: Rewriter)
    requires st.mode == Pass && st.cap == "" && st.curOut.None?
    ensures
      var m' := Assemble(m, FlushPending(st).out);
      && m' == m.(blocks := m'.blocks)
      && Joined(Contents(m'.blocks)) == Join(Joined(Contents(m.blocks)), TextContent(st.scan))
  {
    FlushSays(st);
    if st.scan != "" {
      var b := Block(TextHead(""), [TextDelta(st.scan)]);
      BlockAssembles(m, st.nextOut, b);
      ContentsSnoc(m.blocks, b);
      JoinedSnoc(Contents(m.blocks), ContentOf(b));
      OneDelta(st.scan);
    }
  }

  lemma OneDelta(text: string)
    ensures TextOf([TextDelta(text)]) == text && ContentOf(Block(TextHead(""), [TextDelta(text)])) == TextContent(text)
  {
    assert [TextDelta(text)][..0] == [];
    Sequences.ConcatEmpty(text);
  }

  lemma NothingLeft(st: Rewriter)
    requires st.mode == Pass && st.scan == "" && st.curOut.None?
    ensures FinalizeText(st).out == [] && FlushPending(st) == Step(st, [], [])
  {
  }

  /** The last delta of the message, and its stop. */
  lemma DeltaFlushes(c: Config, st: Rewriter, end: Event)
    requires end.MessageDelta?
    ensures
      var s, flushed := OnEvent(c, st, end), FlushPending(st);
      && s.st == flushed.st
      && s.out == flushed.out
                + [MessageDelta(FinalStopReason(flushed.st, end.stopReason), end.inputTokens, end.outputTokens)]
  {
  }

  lemma StopPasses(c: Config, st: Rewriter)
    requires st.mode == Pass && st.scan == "" && st.curOut.None?
    ensures OnEvent(c, st, MessageStop) == Step(st, [MessageStop], [])
  {
    NothingLeft(st);
  }

  lemma EndEvents(c: Config, st: Rewriter, end: Event)
    requires end.MessageDelta? && st.mode == Pass && st.cap == "" && st.curOut.None?
    ensures
      var flushed := FlushPending(st);
      var s := OnEvents(c, st, [end, MessageStop]);
      && s.out == flushed.out
                + [MessageDelta(FinalStopReason(flushed.st, end.stopReason), end.inputTokens, end.outputTokens)]
                + [MessageStop]
      && FinalizeText(s.st).out == []
  {
    FlushSays(st);
    NothingLeft(FlushPending(st).st);
    DeltaFlushes(c, st, end);
    StopPasses(c, FlushPending(st).st);
    OnEventsOne(c, st, end);
    TwoEvents(c, st, end, MessageStop);
  }

  lemma TwoEvents(c: Config, st: Rewriter, a: Event, b: Event)
    ensures OnEvents(c, st, [a, b]) == (var s := OnEvents(c, st, [a]); After(s, OnEvent(c, s.st, b)))
  {
    OnEventsSnoc(c, st, [a], b);
    assert [a] + [b] == [a, b];
  }

  lemma AssembleEnd(m: Message, out: seq<Event>, last: Event)
    ensures Assemble(m, out + [last] + [MessageStop]) == Observe(Assemble(m, out), last)
  {
    AssembleSnoc(m, out, last);
    AssembleSnoc(m, out + [last], MessageStop);
  }

  /** The whole message, from where its last block ended. */
  lemma MessageEnds(c: Config, start: Event, blocks: seq<Block>, end: Event)
    requires start.MessageStart? && end.MessageDelta?
    requires
      var st := Upto(c, start, blocks).st;
      st.mode == Pass && st.cap == "" && st.curOut.None? && Envelope(Sent(c, start, blocks), start)
    ensures
      var st, m := Upto(c, start, blocks).st, Sent(c, start, blocks);
      var s := OnEvents(c, Idle, Streamed(start, blocks, end));
      var final := Assemble(EmptyMessage, s.out);
      && Joined(Contents(final.blocks)) == Join(Joined(Contents(m.blocks)), TextContent(st.scan))
      && final == Message(start.id, start.model, final.blocks, FinalReason(st.synthesized, end.stopReason),
                          end.inputTokens, end.outputTokens)
      && FinalizeText(s.st).out == []
  {
    var before := Upto(c, start, blocks);
    OnEventsConcat(c, Idle, [start] + Blocks(blocks), [end, MessageStop]);
    EndEvents(c, before.st, end);
    FlushSays(before.st);
    var flushed := FlushPending(before.st);
    var last := MessageDelta(FinalStopReason(flushed.st, end.stopReason), end.inputTokens, end.outputTokens);
    EndAssembles(before.out, before.st, last, OnEvents(c, before.st, [end, MessageStop]).out);
    EndObserved(start, Assemble(Sent(c, start, blocks), flushed.out), last, before.st.synthesized, end);
  }

  lemma EndAssembles(out: seq<Event>, st: Rewriter, last: Event, ending: seq<Event>)
    requires st.mode == Pass && st.cap == "" && st.curOut.None? && last.MessageDelta?
    requires ending == FlushPending(st).out + [last] + [MessageStop]
    ensures
      var m := Assemble(EmptyMessage, out);
      var flushed := Assemble(m, FlushPending(st).out);
      && Assemble(EmptyMessage, out + ending) == Observe(flushed, last)
      && flushed == m.(blocks := flushed.blocks)
      && Joined(Contents(flushed.blocks)) == Join(Joined(Contents(m.blocks)), TextContent(st.scan))
  {
    AssembleConcat(EmptyMessage, out, ending);
    FlushedJoins(Assemble(EmptyMessage, out), st);
    AssembleEnd(Assemble(EmptyMessage, out), FlushPending(st).out, last);
  }

  lemma EndObserved(start: Event, m: Message, last: Event, synthesized: bool, end: Event)
    requires start.MessageStart? && end.MessageDelta? && Envelope(m, start)
    requires last.MessageDelta? && last.inputTokens == end.inputTokens && last.outputTokens == end.outputTokens
    requires last.stopReason == FinalReason(synthesized, end.stopReason)
    ensures
      Observe(m, last)
      == Message(start.id, start.model, m.blocks, FinalReason(synthesized, end.stopReason), end.inputTokens, end.outputTokens)
  {
  }

  /**
    However the texts were cut into deltas: the rewritten stream holds the segments of every text, calls numbered
    throughout, and the other blocks, as long as every part may follow what can be held back when it begins.
   */
  lemma StreamHoldsSegments(c: Config, start: Event, parts: seq<Part>, blocks: seq<Block>, end: Event)
    requires start.MessageStart? && end.MessageDelta? && CutsOf(parts, blocks) && Safe(c.parse, parts)
    ensures
      var s := OnEvents(c, Idle, Streamed(start, blocks, end));
      var m, r := Assemble(EmptyMessage, s.out), Planned(c, parts);
      && Joined(Contents(m.blocks)) == Joined(r.content)
      && m == Message(start.id, start.model, m.blocks, FinalReason(r.changed, end.stopReason),
                      end.inputTokens, end.outputTokens)
      && FinalizeText(s.st).out == []
  {
    PartsKeep(c, start, parts, blocks);
    CutsHold(c, start, parts, blocks);
    MessageEnds(c, start, blocks, end);
  }

  // ---------- Against the whole body ----------

  lemma {:induction false} BlocksAssemble(m: Message, blocks: seq<Block>)
    requires m.blocks == []
    ensures Assemble(m, Blocks(blocks)) == m.(blocks := blocks)
  {
    if blocks != [] {
      var n := |blocks| - 1;
      BlocksAssemble(m, blocks[..n]);
      BlockAssembles(m.(blocks := blocks[..n]), n, blocks[n]);
      AssembleConcat(m, Blocks(blocks[..n]), BlockEvents(n, blocks[n]));
      Sequences.Unsnoc(blocks);
    }
  }

  lemma PlainMessage(start: Event, blocks: seq<Block>, end: Event)
    requires start.MessageStart? && end.MessageDelta?
    ensures
      var m := Assemble(EmptyMessage, Streamed(start, blocks, end));
      m.blocks == blocks && m.stopReason == end.stopReason
  {
    var front := [start] + Blocks(blocks);
    AssembleOne(EmptyMessage, start);
    AssembleConcat(EmptyMessage, [start], Blocks(blocks));
    BlocksAssemble(Observe(EmptyMessage, start), blocks);
    AssembleEnd(EmptyMessage, front, end);
    assert front + [end] + [MessageStop] == front + [end, MessageStop];
  }

  lemma {:induction false} PlannedIsSpread(c: Config, parts: seq<Part>, blocks: seq<Block>)
    requires CutsOf(parts, blocks)
    ensures Spread(c, Contents(blocks)) == Planned(c, parts)
  {
    if parts != [] {
      var n := |parts| - 1;
      CutsBefore(parts, blocks);
      PlannedIsSpread(c, parts[..n], blocks[..n]);
      Sequences.Unsnoc(blocks);
      ContentsSnoc(blocks[..n], blocks[n]);
      SpreadSnoc(c, Contents(blocks[..n]), ContentOf(blocks[n]));
      if parts[n].Text? {
        Sequences.ConcatEmpty(parts[n].text);
      }
    }
  }

  /** What a client reads from the rewritten stream is what it would read from the rewritten body. */
  ghost predicate Agrees(c: Config, start: Event, blocks: seq<Block>, end: Event) {
    var es := Streamed(start, blocks, end);
    var sent, plain := Assemble(EmptyMessage, OnEvents(c, Idle, es).out), Assemble(EmptyMessage, es);
    var body := RewriteBody(c, Body(Contents(plain.blocks), plain.stopReason));
    Joined(Contents(sent.blocks)) == Joined(body.content) && sent.stopReason == body.stopReason
  }

  lemma AgreesIf(c: Config, start: Event, parts: seq<Part>, blocks: seq<Block>, end: Event)
    requires start.MessageStart? && end.MessageDelta? && CutsOf(parts, blocks)
    ensures
      var sent, r := Assemble(EmptyMessage, OnEvents(c, Idle, Streamed(start, blocks, end)).out), Planned(c, parts);
      Agrees(c, start, blocks, end)
      <==> Joined(Contents(sent.blocks)) == Joined(r.content) && sent.stopReason == FinalReason(r.changed, end.stopReason)
  {
    PlainMessage(start, blocks, end);
    BodyIsSpread(c, Body(Contents(blocks), end.stopReason));
    PlannedIsSpread(c, parts, blocks);
  }

  /** Rewriting the stream and assembling it equals assembling it and rewriting the whole body. */
  lemma StreamAgreesWithBody(c: Config, start: Event, parts: seq<Part>, blocks: seq<Block>, end: Event)
    requires start.MessageStart? && end.MessageDelta? && CutsOf(parts, blocks) && Safe(c.parse, parts)
    ensures Agrees(c, start, blocks, end)
  {
    StreamHoldsSegments(c, start, parts, blocks, end);
    AgreesIf(c, start, parts, blocks, end);
  }
}
