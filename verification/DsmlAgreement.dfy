/**
  Exactly when rewriting a message's stream agrees with rewriting its body, however its texts are cut. A cut that makes
  a difference is followed to the end of the message, where a character still stands for a call, or the other way round.
 */
module DsmlAgreement {
  import opened Wrappers
  import Sequences
  import opened MessageStream
  import opened DsmlText
  import opened DsmlRewriter
  import opened DsmlRefinement
  import opened DsmlStream
  import opened DsmlStranding
  import opened DsmlMessage
  import opened DsmlLimit
  import opened DsmlReading
  import DsmlLocality
  import DsmlConservation

  // ---------- Cuts into one and two ----------

  function OneCut(a: string): seq<Delta> { [TextDelta(a)] }

  function TwoCuts(a: string, b: string): seq<Delta> { [TextDelta(a), TextDelta(b)] }

  lemma CutTexts(a: string, b: string)
    ensures TextOf(OneCut(a)) == a && TextOf(TwoCuts(a, b)) == a + b
  {
    OneDelta(a);
    assert TwoCuts(a, b)[..1] == OneCut(a);
  }

  lemma FedMore(c: Config, st: Rewriter, i: nat, ds: seq<Delta>, text: string)
    requires Fed(c, st, i, ds).st.curIsText
    ensures Fed(c, st, i, ds + [TextDelta(text)]) == (var s := Fed(c, st, i, ds); After(s, OnText(c, s.st, text)))
  {
    Sequences.Snoc(ds, TextDelta(text));
    DsmlStream.LastDelta(c, Begun(st), i, ds + [TextDelta(text)]);
  }

  /** Some message, of which the rewriter does not know more. */
  const Unseen := Observe(EmptyMessage, BlockStart(0, TextHead("")))

  lemma BegunShows(c: Config, st: Rewriter) returns (r: Rewriting)
    requires Between(st)
    ensures Shows(c, r, Unseen.blocks, [], Begun(st)) && Settled(Begun(st))
  {
    r := AsSent(EmptyMessage, st);
    BeginShows(c, r, EmptyMessage, st);
    assert Observe(EmptyMessage, BlockStart(st.nextOut, TextHead(""))) == Unseen;
  }

  /** The text all at once: everything is found, with what was held back before it. */
  lemma FedOne(c: Config, st: Rewriter, i: nat, a: string)
    requires Between(st)
    ensures
      var s := Fed(c, st, i, OneCut(a));
      && Settled(s.st) && s.st.curIsText && s.st == OnText(c, Begun(st), a).st
      && Total(s) == Divide(c.parse, [], st.scan + a)
  {
    var r := BegunShows(c, st);
    assert Deltas(i, []) == [] && Fed(c, st, i, []) == Step(Begun(st), [], []);
    Sequences.ConcatEmpty(OneCut(a));
    FedMore(c, st, i, [], a);
    QuietShows(c, r, Unseen, [], Begun(st));
    LastText(c, r, Unseen, Fed(c, st, i, []), a);
  }

  lemma FedTwo(c: Config, st: Rewriter, i: nat, a: string, b: string)
    requires Between(st)
    ensures
      var half, s := Fed(c, st, i, OneCut(a)), Fed(c, st, i, TwoCuts(a, b));
      && s.st == OnText(c, half.st, b).st
      && Divide(c.parse, PushPieces([], half.pieces), Held(half.st) + b) == Total(s)
  {
    var r := BegunShows(c, st);
    var all := OneCut(a);
    CutTexts(a, b);
    FedOne(c, st, i, a);
    assert all + [TextDelta(b)] == TwoCuts(a, b);
    FedMore(c, st, i, all, b);
    FedShows(c, r, Unseen, st, i, all);
    LastText(c, r, Unseen, Fed(c, st, i, all), b);
  }

  /** After a text that is spent nothing is held. */
  lemma FedSpent(c: Config, st: Rewriter, i: nat, a: string)
    requires Between(st) && Spent(st.scan + a)
    ensures
      var s := Fed(c, st, i, OneCut(a)).st;
      s.mode == Pass && s.scan == "" && s.cap == "" && s.curOut.None?
  {
    FedOne(c, st, i, a);
    SpentAtOnce(c, Begun(st).(scan := st.scan + a));
  }

  // ---------- A cut for everything that can be held back ----------

  /** A spent text in one piece, and what follows in another. */
  lemma CutAt(c: Config, st: Rewriter, i: nat, text: string, n: nat) returns (ds: seq<Delta>)
    requires Between(st) && n < |st.scan + text| && SpentAt(st.scan + text, n)
    ensures AllText(ds) && TextOf(ds) == text
    ensures
      var b := (st.scan + text)[n..];
      Left(Fed(c, st, i, ds).st) == if |b| < MAX_OPEN then b else ""
  {
    var k := n - |st.scan|;
    SpentIsLonger(st.scan, text, n);
    var a, b := text[..k], text[k..];
    Sequences.Cut(text, k);
    assert (st.scan + text)[..n] == st.scan + a && (st.scan + text)[n..] == b;
    ds := TwoCuts(a, b);
    CutTexts(a, b);
    FedSpent(c, st, i, a);
    FedTwo(c, st, i, a, b);
    Untouched(c, Fed(c, st, i, OneCut(a)).st, b);
  }

  /** Text in which no opening tag is complete, with no block open: a few characters are held, more open a block. */
  lemma Untouched(c: Config, st: Rewriter, b: string)
    requires st.mode == Pass && st.scan == "" && st.curOut.None? && FindOpen(b).None?
    ensures Left(OnText(c, st, b).st) == if |b| < MAX_OPEN then b else ""
  {
    assert "" + b == b;
  }

  lemma LeavingCut(c: Config, st: Rewriter, i: nat, text: string, held: string) returns (ds: seq<Delta>)
    requires Between(st) && CanLeave(st.scan + text, held)
    ensures AllText(ds) && TextOf(ds) == text && Left(Fed(c, st, i, ds).st) == held
  {
    var whole := st.scan + text;
    if held != "" {
      ds := CutAt(c, st, i, text, |whole| - |held|);
    } else if FindOpen(whole).None? || FindOpen(Tail(whole)).Some? {
      ds := OneCut(text);
      CutTexts(text, "");
      LeavesNothing(c, st, i, text);
    } else {
      var n: nat :| SpentAt(whole, n) && (n == |whole| || |whole| - n >= MAX_OPEN);
      ds := LeavingNothing(c, st, i, text, n);
    }
  }

  lemma LeavesNothing(c: Config, st: Rewriter, i: nat, text: string)
    requires Between(st) && (FindOpen(st.scan + text).None? || FindOpen(Tail(st.scan + text)).Some?)
    ensures Left(Fed(c, st, i, OneCut(text)).st) == ""
  {
    FedOne(c, st, i, text);
    if FindOpen(st.scan + text).Some? {
      OpenAtOnce(c, Begun(st).(scan := st.scan + text));
    }
  }

  lemma LeavingNothing(c: Config, st: Rewriter, i: nat, text: string, n: nat) returns (ds: seq<Delta>)
    requires Between(st) && SpentAt(st.scan + text, n)
    requires n == |st.scan + text| || |st.scan + text| - n >= MAX_OPEN
    ensures AllText(ds) && TextOf(ds) == text && Left(Fed(c, st, i, ds).st) == ""
  {
    if n == |st.scan + text| {
      ds := OneCut(text);
      CutTexts(text, "");
      assert (st.scan + text)[..n] == st.scan + text;
      FedSpent(c, st, i, text);
    } else {
      ds := CutAt(c, st, i, text, n);
    }
  }

  ghost predicate Wellformed(parts: seq<Part>) {
    forall i | 0 <= i < |parts| && parts[i].Other? :: !parts[i].block.head.TextHead?
  }

  function Uncut(part: Part): Block {
    match part
    case Text(text) => Block(TextHead(""), OneCut(text))
    case Other(block) => block
  }

  function AllUncut(parts: seq<Part>): seq<Block> {
    seq(|parts|, i requires 0 <= i < |parts| => Uncut(parts[i]))
  }

  lemma UncutCuts(parts: seq<Part>)
    requires Wellformed(parts)
    ensures CutsOf(parts, AllUncut(parts))
  {
    forall i | 0 <= i < |parts| ensures CutOf(parts[i], AllUncut(parts)[i]) {
      if parts[i].Text? {
        CutTexts(parts[i].text, "");
      }
    }
  }

  lemma WellformedBefore(parts: seq<Part>, n: nat)
    requires Wellformed(parts) && n <= |parts|
    ensures Wellformed(parts[..n]) && Wellformed(parts[n..])
  {
    forall i | 0 <= i < |parts| - n && parts[n..][i].Other? ensures !parts[n..][i].block.head.TextHead? {
      assert parts[n + i].Other?;
    }
  }

  lemma CutsSnoc(parts: seq<Part>, front: seq<Block>, b: Block)
    requires parts != [] && CutsOf(parts[..|parts| - 1], front) && CutOf(parts[|parts| - 1], b)
    ensures CutsOf(parts, front + [b])
    ensures (front + [b])[..|parts| - 1] == front && (front + [b])[|parts| - 1] == b
  {
    var n := |parts| - 1;
    forall i | 0 <= i < |parts| ensures CutOf(parts[i], (front + [b])[i]) {
      if i < n {
        assert CutOf(parts[..n][i], front[i]);
      }
    }
  }

  /** Whatever can be held back is, by some cut. */
  lemma {:induction false} CutHolding(c: Config, start: Event, parts: seq<Part>, held: string) returns (blocks: seq<Block>)
    requires start.MessageStart? && Wellformed(parts) && CanHold(parts, held)
    ensures CutsOf(parts, blocks) && Upto(c, start, blocks).st.scan == held
    decreases |parts|
  {
    if parts == [] || parts[|parts| - 1].Other? {
      blocks := AllUncut(parts);
      UncutCuts(parts);
      CutsHold(c, start, parts, blocks);
    } else {
      var n := |parts| - 1;
      var front, text := parts[..n], parts[n].text;
      var before: string :| CanHold(front, before) && CanLeaveAfter(before, text, held);
      WellformedBefore(parts, n);
      var done := CutHolding(c, start, front, before);
      blocks := TextLeaving(c, start, parts, done, held);
    }
  }

  lemma TextLeaving(c: Config, start: Event, parts: seq<Part>, front: seq<Block>, held: string) returns (blocks: seq<Block>)
    requires start.MessageStart? && parts != [] && parts[|parts| - 1].Text? && CutsOf(parts[..|parts| - 1], front)
    requires CanLeave(Upto(c, start, front).st.scan + parts[|parts| - 1].text, held)
    ensures CutsOf(parts, blocks) && Upto(c, start, blocks).st.scan == held
  {
    var n, st, m := |parts| - 1, Upto(c, start, front).st, Sent(c, start, front);
    CutsHold(c, start, parts[..n], front);
    var ds := LeavingCut(c, st, n, parts[n].text, held);
    var b := Block(TextHead(""), ds);
    blocks := front + [b];
    CutsSnoc(parts, front, b);
    UptoNext(c, start, blocks);
    TextRuns(c, AsSent(m, st), m, st, n, ds);
  }

  // ---------- The two readings of a text ----------

  lemma {:induction false} FedReads(c: Config, r: Rewriting, st: Rewriter, i: nat, ds: seq<Delta>)
    requires Between(st) && AllText(ds) && Shows(c, r, Unseen.blocks, [], Begun(st))
    ensures
      var s := Fed(c, st, i, ds);
      && Proper(c.parse, s.pieces)
      && DsmlConservation.Spelled(s.pieces) + Held(s.st) == st.scan + TextOf(ds)
  {
    if ds == [] {
      assert Deltas(i, []) == [] && Fed(c, st, i, []) == Step(Begun(st), [], []);
      Sequences.ConcatEmpty(st.scan);
      assert "" + st.scan == st.scan;
    } else {
      var short, text := ds[..|ds| - 1], ds[|ds| - 1].text;
      assert ds[|ds| - 1] in ds;
      FedReads(c, r, st, i, short);
      FedShows(c, r, Unseen, st, i, short);
      DsmlStream.LastDelta(c, Begun(st), i, ds);
      MoreReads(c, Fed(c, st, i, short), st.scan + TextOf(short), text);
      Sequences.Associate(st.scan, TextOf(short), text);
    }
  }

  lemma MoreReads(c: Config, s: Step, before: string, text: string)
    requires Settled(s.st) && Proper(c.parse, s.pieces) && DsmlConservation.Spelled(s.pieces) + Held(s.st) == before
    ensures
      var next := After(s, OnText(c, s.st, text));
      Proper(c.parse, next.pieces) && DsmlConservation.Spelled(next.pieces) + Held(next.st) == before + text
  {
    var step := OnText(c, s.st, text);
    TextIsProper(c, s.st, text);
    ProperConcat(c.parse, s.pieces, step.pieces);
    DsmlConservation.TextConserves(c, s.st, text);
    SpelledOn(s.pieces, Held(s.st), text, step.pieces, Held(step.st));
  }

  lemma SpelledOn(p: seq<Piece>, held: string, text: string, more: seq<Piece>, left: string)
    requires held + text == DsmlConservation.Spelled(more) + left
    ensures DsmlConservation.Spelled(p + more) + left == DsmlConservation.Spelled(p) + held + text
  {
    DsmlConservation.SpelledConcat(p, more);
    Sequences.Associate(DsmlConservation.Spelled(p), DsmlConservation.Spelled(more), left);
    Sequences.Associate(DsmlConservation.Spelled(p), held, text);
  }

  /** What came out of a text block and what it leaves held back, as a reading of the text. */
  lemma StoppedReads(c: Config, st: Rewriter, i: nat, ds: seq<Delta>)
    requires Between(st) && AllText(ds)
    ensures
      var s := Stopped(c, st, i, ds);
      && Proper(c.parse, s.pieces) && FindOpen(s.st.scan).None?
      && DsmlConservation.Spelled(s.pieces) + s.st.scan == st.scan + TextOf(ds)
  {
    var r := BegunShows(c, st);
    var fed := Fed(c, st, i, ds);
    FedReads(c, r, st, i, ds);
    FedShows(c, r, Unseen, st, i, ds);
    TextStops(c, r, Unseen, st, i, ds);
    var stop := OnBlockStop(fed.st);
    StopIsProper(c.parse, fed.st);
    ProperConcat(c.parse, fed.pieces, stop.pieces);
    DsmlConservation.StopConserves(fed.st);
    Sequences.ConcatEmpty(Held(fed.st));
    SpelledOn(fed.pieces, Held(fed.st), "", stop.pieces, stop.st.scan);
    Sequences.ConcatEmpty(DsmlConservation.Spelled(fed.pieces) + Held(fed.st));
  }

  lemma RegionIsTight(text: string)
    requires Split(text).Some?
    ensures Tight(Split(text).value.region)
  {
    var w := FindWrapper(text, 0).value;
    var u := text[w.start..];
    WrapperAtTheFront(text, w);
    assert text[w.start..w.end] == u[..w.end - w.start] && u == u[..w.end - w.start] + u[w.end - w.start..];
    DsmlLocality.FindWrapperInside(u[..w.end - w.start], u[w.end - w.start..]);
  }

  /** The body's reading of a text. */
  lemma {:induction false} PiecesOfReads(parse: Parser, text: string)
    ensures Proper(parse, PiecesOf(parse, text)) && DsmlConservation.Spelled(PiecesOf(parse, text)) == text
    decreases |text|
  {
    match Split(text)
    case None =>
      DsmlConservation.SpelledOne(Said(text));
    case Some(p) =>
      var front, region, later := Said(p.front), RegionPiece(parse, p.region), PiecesOf(parse, p.rest);
      RegionIsTight(text);
      PiecesOfReads(parse, p.rest);
      DsmlConservation.SpelledOne(front);
      DsmlConservation.SpelledOne(region);
      assert [front, region] == [front] + [region];
      DsmlConservation.SpelledConcat([front], [region]);
      DsmlConservation.SpelledConcat([front, region], later);
      ProperConcat(parse, [front, region], later);
      PartsOfText(text, FindWrapper(text, 0).value.start, FindWrapper(text, 0).value.end);
  }

  function PlanPieces(before: string, pieces: seq<Piece>): seq<Piece> {
    [Said(before)] + pieces
  }

  lemma PlanReads(parse: Parser, before: string, text: string)
    ensures
      var q := PlanPieces(before, PiecesOf(parse, text));
      && Proper(parse, q) && DsmlConservation.Spelled(q) == before + text
      && PushPieces([], q) == Divide(parse, PushText([], before), text)
      && PieceMarks(q) == Letters(before) + PieceMarks(PiecesOf(parse, text))
  {
    PiecesOfReads(parse, text);
    SaidIsProper(parse, before, PiecesOf(parse, text));
    ConsBegins([], Said(before), PiecesOf(parse, text));
    DivideIsPieces(parse, PushText([], before), text);
  }

  // ---------- Wrong for good ----------

  lemma ComesToMarks(plan: Rewriting, m: Message, st: Rewriter)
    requires ComesTo(plan, m, st)
    ensures Marks(plan.content) == Marks(Contents(m.blocks)) + Letters(st.scan)
  {
    MarksJoined(plan.content);
    MarksJoined(Contents(m.blocks));
    MarksJoin(Joined(Contents(m.blocks)), TextContent(st.scan));
  }

  /** What a text block adds, as marks. */
  lemma SentMarks(c: Config, m: Message, st: Rewriter, i: nat, ds: seq<Delta>)
    requires Between(st) && AllText(ds)
    ensures
      var s := OnEvents(c, st, BlockEvents(i, Block(TextHead(""), ds)));
      Marks(Contents(Assemble(m, s.out).blocks)) == Marks(Contents(m.blocks)) + PieceMarks(Stopped(c, st, i, ds).pieces)
  {
    var r := AsSent(m, st);
    TextRuns(c, r, m, st, i, ds);
    var s := OnEvents(c, st, BlockEvents(i, Block(TextHead(""), ds)));
    MarksJoined(Contents(Assemble(m, s.out).blocks));
    MarksJoined(Segmented(c, r, Found(c, st, i, ds)).content);
    PiecesMarks(c, r, Stopped(c, st, i, ds).pieces);
  }

  lemma PlanMarks(c: Config, plan: Rewriting, text: string)
    ensures
      Marks(Segmented(c, plan, Segments(text, c.parse)).content) == Marks(plan.content) + PieceMarks(PiecesOf(c.parse, text))
  {
    DivideIsSegments(c.parse, text);
    DivideIsPieces(c.parse, [], text);
    PiecesMarks(c, plan, PiecesOf(c.parse, text));
  }

  ghost predicate Apart(m: Message, plan: Rewriting) {
    Diverged(Marks(Contents(m.blocks)), Marks(plan.content))
  }

  /** A text of which something else is found than the body's reading finds. */
  lemma TextApart(c: Config, plan: Rewriting, m: Message, st: Rewriter, i: nat, ds: seq<Delta>)
    requires ComesTo(plan, m, st) && AllText(ds)
    requires Total(Fed(c, st, i, ds)) != Divide(c.parse, PushText([], st.scan), TextOf(ds))
    ensures
      var s := OnEvents(c, st, BlockEvents(i, Block(TextHead(""), ds)));
      Apart(Assemble(m, s.out), Segmented(c, plan, Segments(TextOf(ds), c.parse)))
  {
    var text, s := TextOf(ds), Stopped(c, st, i, ds);
    var p, q := s.pieces, PlanPieces(st.scan, PiecesOf(c.parse, text));
    var r := BegunShows(c, st);
    TextStops(c, r, Unseen, st, i, ds);
    StoppedReads(c, st, i, ds);
    PlanReads(c.parse, st.scan, text);
    ReadingsAgreeOrDiverge(c.parse, [], p, s.st.scan, q);
    SentMarks(c, m, st, i, ds);
    PlanMarks(c, plan, text);
    ComesToMarks(plan, m, st);
    var front := Marks(Contents(m.blocks));
    Sequences.Associate(front, Letters(st.scan), PieceMarks(PiecesOf(c.parse, text)));
    DivergedLater(front, PieceMarks(p), PieceMarks(q));
  }

  /** What another block adds: one mark that is no character. */
  lemma OtherMarks(c: Config, m: Message, st: Rewriter, i: nat, b: Block)
    requires Between(st) && !b.head.TextHead?
    ensures
      Marks(Contents(Assemble(m, OnEvents(c, st, BlockEvents(i, b)).out).blocks)) == Marks(Contents(m.blocks)) + [None]
  {
    var r, x := AsSent(m, st), ContentOf(Touched(b, st.scan));
    OtherRuns(c, r, m, st, i, b);
    MarksJoined(Contents(Assemble(m, OnEvents(c, st, BlockEvents(i, b)).out).blocks));
    MarksJoined(With(r, x).content);
    MarksSnoc(Contents(m.blocks), x);
  }

  /** Text held back when another block begins. */
  lemma OtherApart(c: Config, plan: Rewriting, m: Message, st: Rewriter, i: nat, b: Block)
    requires ComesTo(plan, m, st) && st.scan != "" && !b.head.TextHead?
    ensures Apart(Assemble(m, OnEvents(c, st, BlockEvents(i, b)).out), With(plan, ContentOf(b)))
  {
    OtherMarks(c, m, st, i, b);
    ComesToMarks(plan, m, st);
    MarksSnoc(plan.content, ContentOf(b));
    var front := Marks(Contents(m.blocks));
    Sequences.Associate(front, Letters(st.scan), [None]);
    assert (Letters(st.scan) + [None])[0] == Some(st.scan[0]);
    assert Diverged([None], Letters(st.scan) + [None]);
    DivergedLater(front, [None], Letters(st.scan) + [None]);
  }

  /** A part that may not follow what is held back has a cut that makes a difference. */
  lemma BadCut(c: Config, plan: Rewriting, m: Message, st: Rewriter, i: nat, part: Part) returns (b: Block)
    requires ComesTo(plan, m, st) && !MayFollow(c.parse, st.scan, part) && (part.Other? ==> !part.block.head.TextHead?)
    ensures CutOf(part, b) && Apart(Assemble(m, OnEvents(c, st, BlockEvents(i, b)).out), PlanPart(c, plan, part))
  {
    match part
    case Text(text) =>
      var ds := BadTextCut(c, st, i, text);
      TextApart(c, plan, m, st, i, ds);
      b := Block(TextHead(""), ds);
    case Other(block) =>
      OtherApart(c, plan, m, st, i, block);
      b := block;
  }

  /** All at once, if the texts divide otherwise together; else as the buffer's limit shows. */
  lemma BadTextCut(c: Config, st: Rewriter, i: nat, text: string) returns (ds: seq<Delta>)
    requires Between(st) && !MayFollow(c.parse, st.scan, Text(text))
    ensures AllText(ds) && TextOf(ds) == text
    ensures Total(Fed(c, st, i, ds)) != Divide(c.parse, PushText([], st.scan), text)
  {
    var whole := st.scan + text;
    CutTexts(text, "");
    if Divide(c.parse, [], whole) != Divide(c.parse, PushText([], st.scan), text) {
      ds := OneCut(text);
      FedOne(c, st, i, text);
    } else {
      var a, b := UnfitIsShown(c.parse, whole);
      ds := ShowingCut(c, st, i, text, a, b);
    }
  }

  lemma ShowingCut(c: Config, st: Rewriter, i: nat, text: string, a: string, b: string) returns (ds: seq<Delta>)
    requires Between(st) && Shown(c.parse, st.scan + text, a, b)
    ensures AllText(ds) && TextOf(ds) == text
    ensures Total(Fed(c, st, i, ds)) != Divide(c.parse, [], st.scan + text)
  {
    OutgrowsIsSpent(a);
    var a' := AfterHeld(st.scan, text, a, b);
    ds := TwoCuts(a', b);
    CutTexts(a', b);
    ShowsAfterSpent(c, st, i, text, a', a, b);
  }

  lemma AfterHeld(held: string, text: string, a: string, b: string) returns (a': string)
    requires held + text == a + b && Spent(a) && FindOpen(held).None?
    ensures text == a' + b && held + a' == a
  {
    assert (a + b)[..|a|] == a;
    SpentIsLonger(held, text, |a|);
    a' := a[|held|..];
    assert (held + text)[..|held|] == held && (a + b)[..|held|] == a[..|held|];
    assert (held + text)[|held|..] == text && (a + b)[|held|..] == a' + b;
  }

  lemma ShowsAfterSpent(c: Config, st: Rewriter, i: nat, text: string, a': string, a: string, b: string)
    requires Between(st) && Shown(c.parse, st.scan + text, a, b) && st.scan + a' == a && Spent(a)
    ensures Total(Fed(c, st, i, TwoCuts(a', b))) != Divide(c.parse, [], st.scan + text)
  {
    FedSpent(c, st, i, a');
    FedOne(c, st, i, a');
    FedTwo(c, st, i, a', b);
    var half := PushPieces([], Fed(c, st, i, OneCut(a')).pieces);
    assert "" + a == a;
    CallsDiffer(c.parse, st.scan + text, a, b, half, Total(Fed(c, st, i, TwoCuts(a', b))));
    DivideIsSegments(c.parse, st.scan + text);
  }

  // ---------- To the end of the message ----------

  ghost predicate WrongAt(c: Config, start: Event, parts: seq<Part>, blocks: seq<Block>) {
    CutsOf(parts, blocks) && Apart(Sent(c, start, blocks), Planned(c, parts))
  }

  lemma PartAdds(c: Config, m: Message, st: Rewriter, i: nat, part: Part, b: Block) returns (more: seq<Mark>)
    requires Between(st) && CutOf(part, b)
    ensures
      Marks(Contents(Assemble(m, OnEvents(c, st, BlockEvents(i, b)).out).blocks)) == Marks(Contents(m.blocks)) + more
  {
    match part
    case Text(_) =>
      assert b == Block(TextHead(""), b.deltas);
      SentMarks(c, m, st, i, b.deltas);
      more := PieceMarks(Stopped(c, st, i, b.deltas).pieces);
    case Other(_) =>
      OtherMarks(c, m, st, i, b);
      more := [None];
  }

  lemma PlanAdds(c: Config, plan: Rewriting, part: Part) returns (more: seq<Mark>)
    ensures Marks(PlanPart(c, plan, part).content) == Marks(plan.content) + more
  {
    match part
    case Text(text) =>
      PlanMarks(c, plan, text);
      more := PieceMarks(PiecesOf(c.parse, text));
    case Other(block) =>
      MarksSnoc(plan.content, ContentOf(block));
      more := MarkOf(ContentOf(block));
  }

  /** One more block makes nothing good. */
  lemma WrongNext(c: Config, start: Event, parts: seq<Part>, blocks: seq<Block>)
    requires start.MessageStart? && parts != [] && CutsOf(parts, blocks)
    requires WrongAt(c, start, parts[..|parts| - 1], blocks[..|parts| - 1])
    ensures WrongAt(c, start, parts, blocks)
  {
    var n := |parts| - 1;
    var front, st, m, plan := blocks[..n], Upto(c, start, blocks[..n]).st, Sent(c, start, blocks[..n]), Planned(c, parts[..n]);
    CutsBefore(parts, blocks);
    CutsHold(c, start, parts[..n], front);
    UptoNext(c, start, blocks);
    var more := PartAdds(c, m, st, n, parts[n], blocks[n]);
    var more' := PlanAdds(c, plan, parts[n]);
    DivergedStays(Marks(Contents(m.blocks)), Marks(plan.content), more, more');
  }

  lemma {:induction false} WrongStays(c: Config, start: Event, parts: seq<Part>, blocks: seq<Block>, k: nat)
    requires start.MessageStart? && CutsOf(parts, blocks) && k <= |parts| && WrongAt(c, start, parts[..k], blocks[..k])
    ensures WrongAt(c, start, parts, blocks)
    decreases |parts|
  {
    var n := |parts| - 1;
    if k == |parts| {
      assert parts[..k] == parts && blocks[..k] == blocks;
    } else {
      CutsBefore(parts, blocks);
      assert parts[..n][..k] == parts[..k] && blocks[..n][..k] == blocks[..k];
      WrongStays(c, start, parts[..n], blocks[..n], k);
      WrongNext(c, start, parts, blocks);
    }
  }

  lemma WrongDisagrees(c: Config, start: Event, parts: seq<Part>, blocks: seq<Block>, end: Event)
    requires start.MessageStart? && end.MessageDelta? && WrongAt(c, start, parts, blocks)
    ensures !Agrees(c, start, blocks, end)
  {
    CutsHold(c, start, parts, blocks);
    MessageEnds(c, start, blocks, end);
    AgreesIf(c, start, parts, blocks, end);
    var st, m, plan := Upto(c, start, blocks).st, Sent(c, start, blocks), Planned(c, parts);
    MarksJoined(plan.content);
    MarksJoined(Contents(m.blocks));
    MarksJoin(Joined(Contents(m.blocks)), TextContent(st.scan));
    DivergedStays(Marks(Contents(m.blocks)), Marks(plan.content), Letters(st.scan), []);
    Sequences.ConcatEmpty(Marks(plan.content));
  }

  ghost predicate AllCutsAgree(c: Config, start: Event, parts: seq<Part>, end: Event) {
    forall blocks | CutsOf(parts, blocks) :: Agrees(c, start, blocks, end)
  }

  lemma SafeSnoc(parse: Parser, parts: seq<Part>)
    requires parts != [] && Safe(parse, parts[..|parts| - 1])
    requires
      var front, last := parts[..|parts| - 1], parts[|parts| - 1];
      forall held: string | CanHold(front, held) :: MayFollow(parse, held, last)
    ensures Safe(parse, parts)
  {
    var front := parts[..|parts| - 1];
    forall n: nat, held: string | n < |parts| && CanHold(parts[..n], held) ensures MayFollow(parse, held, parts[n]) {
      if n < |front| {
        assert front[..n] == parts[..n] && front[n] == parts[n];
      }
    }
  }

  /** The first part that may not follow what can be held back. */
  lemma {:induction false} FirstUnsafe(parse: Parser, parts: seq<Part>) returns (n: nat, held: string)
    requires !Safe(parse, parts)
    ensures n < |parts| && Safe(parse, parts[..n]) && CanHold(parts[..n], held) && !MayFollow(parse, held, parts[n])
  {
    var last := |parts| - 1;
    var front := parts[..last];
    if !Safe(parse, front) {
      n, held := FirstUnsafe(parse, front);
      assert front[..n] == parts[..n];
    } else {
      n := last;
      if forall h: string | CanHold(front, h) :: MayFollow(parse, h, parts[last]) {
        SafeSnoc(parse, parts);
        assert false;
      }
      held :| CanHold(front, held) && !MayFollow(parse, held, parts[last]);
    }
  }

  /** A bad cut of that part, the parts before it cut so that this is held back. */
  lemma WrongSomewhere(c: Config, start: Event, parts: seq<Part>) returns (k: nat, upto: seq<Block>)
    requires start.MessageStart? && Wellformed(parts) && !Safe(c.parse, parts)
    ensures k <= |parts| && WrongAt(c, start, parts[..k], upto)
  {
    var n, held := FirstUnsafe(c.parse, parts);
    k := n + 1;
    assert parts[..k][..n] == parts[..n] && parts[..k][n] == parts[n];
    WellformedBefore(parts, n);
    WellformedBefore(parts, k);
    var front := CutHolding(c, start, parts[..n], held);
    upto := BadCutAfter(c, start, parts[..k], front);
  }

  /** And the parts after it uncut. */
  lemma UnsafeDisagrees(c: Config, start: Event, parts: seq<Part>, end: Event)
    requires start.MessageStart? && end.MessageDelta? && Wellformed(parts) && !Safe(c.parse, parts)
    ensures !AllCutsAgree(c, start, parts, end)
  {
    var k, upto := WrongSomewhere(c, start, parts);
    var blocks := upto + AllUncut(parts[k..]);
    RestUncut(parts, k, upto);
    WrongStays(c, start, parts, blocks, k);
    WrongDisagrees(c, start, parts, blocks, end);
  }

  lemma RestUncut(parts: seq<Part>, n: nat, upto: seq<Block>)
    requires Wellformed(parts) && n <= |parts| && CutsOf(parts[..n], upto)
    ensures CutsOf(parts, upto + AllUncut(parts[n..])) && (upto + AllUncut(parts[n..]))[..n] == upto
  {
    WellformedBefore(parts, n);
    UncutCuts(parts[n..]);
    var blocks := upto + AllUncut(parts[n..]);
    forall i | 0 <= i < |parts| ensures CutOf(parts[i], blocks[i]) {
      if i < n {
        assert CutOf(parts[..n][i], upto[i]);
      } else {
        assert CutOf(parts[n..][i - n], AllUncut(parts[n..])[i - n]);
      }
    }
  }

  lemma BadCutAfter(c: Config, start: Event, parts: seq<Part>, front: seq<Block>) returns (blocks: seq<Block>)
    requires start.MessageStart? && parts != [] && Wellformed(parts)
    requires Safe(c.parse, parts[..|parts| - 1]) && CutsOf(parts[..|parts| - 1], front)
    requires !MayFollow(c.parse, Upto(c, start, front).st.scan, parts[|parts| - 1])
    ensures WrongAt(c, start, parts, blocks)
  {
    var n, st, m := |parts| - 1, Upto(c, start, front).st, Sent(c, start, front);
    PartsKeep(c, start, parts[..n], front);
    var b := BadCut(c, Planned(c, parts[..n]), m, st, n, parts[n]);
    blocks := front + [b];
    CutsSnoc(parts, front, b);
    UptoNext(c, start, blocks);
  }

  /**
    Every way to cut the texts of a message into deltas gives a stream that agrees with the rewritten body, exactly
    when every part may follow whatever can be held back when it begins.
   */
  lemma CutsAgreeIffSafe(c: Config, start: Event, parts: seq<Part>, end: Event)
    requires start.MessageStart? && end.MessageDelta? && Wellformed(parts)
    ensures AllCutsAgree(c, start, parts, end) <==> Safe(c.parse, parts)
  {
    if Safe(c.parse, parts) {
      forall blocks | CutsOf(parts, blocks) ensures Agrees(c, start, blocks, end) {
        StreamAgreesWithBody(c, start, parts, blocks, end);
      }
    } else {
      UnsafeDisagrees(c, start, parts, end);
    }
  }

  // ---------- Text lost: a wrapper, a few characters, and a tool call ----------

  const EMPTY_WRAPPER := Tag("", false, false, true) + Tag("/", false, false, true)

  const TAIL := "abc"

  lemma TailHasNoTag()
    ensures FindOpen(TAIL).None? && Split(TAIL).None?
  {
    if FindOpen(TAIL).Some? {
      TagShape(TAIL, FindOpen(TAIL).value.start, FindOpen(TAIL).value.end, false);
    }
  }

  lemma WrapperIsFound()
    ensures
      var text, n := EMPTY_WRAPPER + TAIL, |EMPTY_WRAPPER|;
      && FindOpen(text).Some? && FindOpen(text).value.start == 0
      && FindWrapper(text, 0).Some? && FindWrapper(text, 0).value.start == 0 && FindWrapper(text, 0).value.end == n
      && text[0..n] == EMPTY_WRAPPER && text[n..] == TAIL && text[..0] == "" && text[0..] == text
  {
    var opening, closing := Tag("", false, false, true), Tag("/", false, false, true);
    var text, n := EMPTY_WRAPPER + TAIL, |EMPTY_WRAPPER|;
    AllForms("", false, false, true);
    AllForms("/", false, false, true);
    TagsBracketed(opening);
    assert text[0..|opening|] == opening && text[|opening|..n] == closing;
    var w := Wrapper(0, |opening|, |opening|, n);
    assert TagAt(text, 0, |opening|, false) && TagAt(text, |opening|, n, true);
    FindWrapperIs(text, 0, w);
    var s := FindOpen(text).value;
    FirstTagUnique(text, 0, 0, |opening|, s.start, s.end, false);
  }

  /** A wrapper and a few characters after it, scanned at once, leave those. */
  lemma RestIsStranded(c: Config, st: Rewriter, region: string, rest: string)
    requires st.mode == Pass && st.cap == "" && st.scan == region + rest
    requires FindOpen(st.scan).Some? && FindOpen(st.scan).value.start == 0
    requires FindWrapper(st.scan, 0).Some? && FindWrapper(st.scan, 0).value.start == 0
    requires FindWrapper(st.scan, 0).value.end == |region|
    requires FindOpen(rest).None? && 0 < |rest| < MAX_OPEN
    ensures
      var s := PassScan(c, st).st;
      s.mode == Pass && s.cap == "" && s.curOut.None? && s.scan == rest
  {
    var begun := Captured(st).st;
    assert begun.cap == st.scan && begun.mode == Capture;
    assert st.scan[..|region|] == region && st.scan[0..|region|] == region && st.scan[|region|..] == rest;
    ResolveKeepsScan(c, begun, region);
    var passing := Resolve(c, begun, region).st.(cap := "", mode := Pass, curOut := None);
    assert PassScan(c, passing.(scan := rest)) == Step(passing.(scan := rest), [], []);
    assert CaptureScan(c, begun).st == passing.(scan := rest);
  }

  lemma TailIsStranded(c: Config, st: Rewriter)
    requires st.mode == Pass && st.cap == "" && st.scan == EMPTY_WRAPPER + TAIL
    ensures
      var s := PassScan(c, st).st;
      s.mode == Pass && s.cap == "" && s.curOut.None? && s.scan == TAIL
  {
    WrapperIsFound();
    TailHasNoTag();
    RestIsStranded(c, st, EMPTY_WRAPPER, TAIL);
  }

  function WrapperText(): Block { Block(TextHead(""), OneCut(EMPTY_WRAPPER + TAIL)) }

  /** A wrapper followed by a few characters, all at once, and then a tool block. */
  function WrapperThenTool(id: string, name: string, json: string): seq<Block> {
    [WrapperText(), Block(ToolHead(id, name), [InputJsonDelta(json)])]
  }

  /** After the text block its last characters are held back, and the wrapper and they are all that was planned. */
  lemma TailIsHeld(c: Config, start: Event, text: Block)
    requires start.MessageStart? && text == Block(TextHead(""), OneCut(EMPTY_WRAPPER + TAIL))
    ensures Upto(c, start, [text]).st.scan == TAIL
    ensures ComesTo(Planned(c, [Text(EMPTY_WRAPPER + TAIL)]), Sent(c, start, [text]), Upto(c, start, [text]).st)
  {
    var whole, ds := EMPTY_WRAPPER + TAIL, OneCut(EMPTY_WRAPPER + TAIL);
    var m, plan := Sent(c, start, []), Rewriting([], false, 0);
    UptoNothing(c, start);
    NothingFound();
    assert [text][..0] == [] && [Text(whole)][..0] == [];
    UptoNext(c, start, [text]);
    CutTexts(whole, "");
    FedOne(c, Idle, 0, whole);
    assert "" + whole == whole && PushText([], "") == [];
    TextFound(c, plan, m, Idle, 0, ds);
    TailIsStranded(c, Begun(Idle).(scan := "" + whole));
    TextRuns(c, AsSent(m, Idle), m, Idle, 0, ds);
  }

  lemma LastBlockTouched(c: Config, start: Event, first: Block, tool: Block)
    requires !tool.head.TextHead?
    requires var st := Upto(c, start, [first]).st; st.mode == Pass && st.curOut.None?
    ensures
      var sent := Sent(c, start, [first, tool]).blocks;
      sent != [] && sent[|sent| - 1] == Touched(tool, Upto(c, start, [first]).st.scan)
  {
    assert [first, tool][..1] == [first];
    UptoNext(c, start, [first, tool]);
    var st := Upto(c, start, [first]).st;
    OtherPasses(c, st, 1, tool);
    BlockAssembles(Sent(c, start, [first]), st.nextOut, Touched(tool, st.scan));
  }

  /** The characters come out inside the tool block, where they are no part of the message. */
  lemma TextAfterWrapperIsLost(c: Config, start: Event, end: Event, id: string, name: string, json: string)
    requires start.MessageStart? && end.MessageDelta?
    ensures
      var blocks := WrapperThenTool(id, name, json);
      var sent := Sent(c, start, blocks).blocks;
      && sent != [] && sent[|sent| - 1] == Block(ToolHead(id, name), [InputJsonDelta(json), TextDelta(TAIL)])
      && !Agrees(c, start, blocks, end)
  {
    WrapperThenOther(c, start, end, WrapperText(), Block(ToolHead(id, name), [InputJsonDelta(json)]));
    ToolTouched(id, name, json);
  }

  lemma WrapperThenOther(c: Config, start: Event, end: Event, text: Block, other: Block)
    requires start.MessageStart? && end.MessageDelta? && text == WrapperText() && !other.head.TextHead?
    ensures
      var sent := Sent(c, start, [text, other]).blocks;
      sent != [] && sent[|sent| - 1] == Touched(other, TAIL) && !Agrees(c, start, [text, other], end)
  {
    TailIsHeld(c, start, text);
    LastBlockTouched(c, start, text, other);
    TailIsText();
    ThenDisagrees(c, start, end, EMPTY_WRAPPER + TAIL, text, other);
  }

  lemma TailIsText()
    ensures TAIL != ""
  {
  }

  lemma ThenDisagrees(c: Config, start: Event, end: Event, whole: string, text: Block, tool: Block)
    requires start.MessageStart? && end.MessageDelta? && !tool.head.TextHead?
    requires text == Block(TextHead(""), OneCut(whole)) && Upto(c, start, [text]).st.scan != ""
    requires ComesTo(Planned(c, [Text(whole)]), Sent(c, start, [text]), Upto(c, start, [text]).st)
    ensures !Agrees(c, start, [text, tool], end)
  {
    var parts, blocks := [Text(whole), Other(tool)], [text, tool];
    assert parts[..|parts| - 1] == [Text(whole)] && blocks[..|parts| - 1] == [text];
    CutTexts(whole, "");
    assert CutOf(parts[0], blocks[0]) && CutOf(parts[1], blocks[1]);
    HeldDisagrees(c, start, parts, blocks, end);
  }

  /** Whatever is held back before a last block that is not text. */
  lemma HeldDisagrees(c: Config, start: Event, parts: seq<Part>, blocks: seq<Block>, end: Event)
    requires start.MessageStart? && end.MessageDelta? && CutsOf(parts, blocks) && parts != [] && parts[|parts| - 1].Other?
    requires
      var front := blocks[..|parts| - 1];
      var st := Upto(c, start, front).st;
      st.scan != "" && ComesTo(Planned(c, parts[..|parts| - 1]), Sent(c, start, front), st)
    ensures !Agrees(c, start, blocks, end)
  {
    var n := |parts| - 1;
    var front := blocks[..n];
    CutsBefore(parts, blocks);
    UptoNext(c, start, blocks);
    OtherApart(c, Planned(c, parts[..n]), Sent(c, start, front), Upto(c, start, front).st, n, blocks[n]);
    WrongDisagrees(c, start, parts, blocks, end);
  }

  lemma ToolTouched(id: string, name: string, json: string)
    ensures
      Touched(Block(ToolHead(id, name), [InputJsonDelta(json)]), TAIL)
      == Block(ToolHead(id, name), [InputJsonDelta(json), TextDelta(TAIL)])
  {
    assert [InputJsonDelta(json)] + [TextDelta(TAIL)] == [InputJsonDelta(json), TextDelta(TAIL)];
  }
}
