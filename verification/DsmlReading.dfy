/**
  Two readings of one text, each taking regions from it wherever it likes, are the same, or one has a character where
  the other has a call: nothing that comes later can make up for that.
 */
module DsmlReading {
  import opened Wrappers
  import Sequences
  import opened MessageStream
  import opened DsmlText
  import opened DsmlLocality
  import opened DsmlRewriter
  import opened DsmlRefinement
  import opened DsmlStream
  import opened DsmlConservation

  // ---------- Characters, and other things ----------

  /** A character of text, or something that is not text. */
  type Mark = Option<char>

  function Letters(text: string): seq<Mark> {
    seq(|text|, i requires 0 <= i < |text| => Some(text[i]))
  }

  function Blanks(n: nat): seq<Mark> {
    seq(n, _ => None)
  }

  function Marks(content: seq<Content>): seq<Mark> {
    if content == [] then [] else Marks(content[..|content| - 1]) + MarkOf(content[|content| - 1])
  }

  function MarkOf(x: Content): seq<Mark> {
    if x.TextContent? then Letters(x.text) else [None]
  }

  function PieceMarks(pieces: seq<Piece>): seq<Mark> {
    if pieces == [] then [] else PieceMarks(pieces[..|pieces| - 1]) + PieceMark(pieces[|pieces| - 1])
  }

  function PieceMark(p: Piece): seq<Mark> {
    match p case Said(text) => Letters(text) case Called(_, calls) => Blanks(|calls|)
  }

  ghost predicate Diverged(u: seq<Mark>, v: seq<Mark>) {
    exists i: nat | i < |u| && i < |v| :: u[i] != v[i]
  }

  lemma DivergedStays(u: seq<Mark>, v: seq<Mark>, more: seq<Mark>, more': seq<Mark>)
    requires Diverged(u, v)
    ensures Diverged(u + more, v + more')
  {
    var i: nat :| i < |u| && i < |v| && u[i] != v[i];
    assert (u + more)[i] == u[i] && (v + more')[i] == v[i];
  }

  lemma DivergedLater(front: seq<Mark>, u: seq<Mark>, v: seq<Mark>)
    requires Diverged(u, v)
    ensures Diverged(front + u, front + v)
  {
    var i: nat :| i < |u| && i < |v| && u[i] != v[i];
    var k: nat := |front| + i;
    assert (front + u)[k] == u[i] && (front + v)[k] == v[i];
  }

  lemma MarksSnoc(content: seq<Content>, x: Content)
    ensures Marks(content + [x]) == Marks(content) + MarkOf(x)
  {
    Sequences.Snoc(content, x);
  }

  lemma LettersConcat(a: string, b: string)
    ensures Letters(a + b) == Letters(a) + Letters(b)
  {
  }

  lemma MarksJoin(acc: seq<Content>, x: Content)
    ensures Marks(Join(acc, x)) == Marks(acc) + MarkOf(x)
  {
    if x == TextContent("") {
      Sequences.ConcatEmpty(Marks(acc));
    } else if x.TextContent? && acc != [] && acc[|acc| - 1].TextContent? {
      var front, last := acc[..|acc| - 1], acc[|acc| - 1].text;
      MarksSnoc(front, TextContent(last + x.text));
      LettersConcat(last, x.text);
      Sequences.Associate(Marks(front), Letters(last), Letters(x.text));
    } else {
      MarksSnoc(acc, x);
    }
  }

  /** Joining adjacent texts changes no mark. */
  lemma {:induction false} MarksJoined(content: seq<Content>)
    ensures Marks(Joined(content)) == Marks(content)
  {
    if content != [] {
      MarksJoined(content[..|content| - 1]);
      MarksJoin(Joined(content[..|content| - 1]), content[|content| - 1]);
    }
  }

  // ---------- The marks of pieces pushed ----------

  lemma PushTextMarks(c: Config, r: Rewriting, acc: seq<Segment>, text: string)
    ensures Marks(Segmented(c, r, PushText(acc, text)).content) == Marks(Segmented(c, r, acc).content) + Letters(text)
  {
    SegmentedPushText(c, r, acc, text);
    MarksJoined(Segmented(c, r, acc).content);
    MarksJoined(Segmented(c, r, PushText(acc, text)).content);
    MarksJoin(Joined(Segmented(c, r, acc).content), TextContent(text));
  }

  lemma {:induction false} PushCallsMarks(c: Config, r: Rewriting, acc: seq<Segment>, calls: seq<Call>, n: nat)
    requires n <= |calls|
    ensures
      Marks(Segmented(c, r, acc + Tools(calls[..n])).content) == Marks(Segmented(c, r, acc).content) + Blanks(n)
  {
    var marks := Marks(Segmented(c, r, acc).content);
    if n == 0 {
      assert acc + Tools(calls[..0]) == acc;
      Sequences.ConcatEmpty(marks);
    } else {
      PushCallsMarks(c, r, acc, calls, n - 1);
      PushCallMarks(c, r, acc + Tools(calls[..n - 1]), calls[n - 1]);
      ToolsSnoc(acc, calls, n);
      OneMoreBlank(marks, n);
    }
  }

  lemma OneMoreBlank(marks: seq<Mark>, n: nat)
    requires n > 0
    ensures marks + Blanks(n - 1) + [None] == marks + Blanks(n)
  {
  }

  lemma PushCallMarks(c: Config, r: Rewriting, acc: seq<Segment>, call: Call)
    ensures Marks(Segmented(c, r, acc + [ToolSegment(call)]).content) == Marks(Segmented(c, r, acc).content) + [None]
  {
    var n := r.tools + CountTools(acc) + 1;
    SegmentedPushTool(c, r, acc, call, n);
    MarksJoined(Segmented(c, r, acc).content);
    MarksJoined(Segmented(c, r, acc + [ToolSegment(call)]).content);
    MarksJoin(Joined(Segmented(c, r, acc).content), Tool(c, n, call));
  }

  lemma PushPieceMarks(c: Config, r: Rewriting, acc: seq<Segment>, p: Piece)
    ensures Marks(Segmented(c, r, PushPiece(acc, p)).content) == Marks(Segmented(c, r, acc).content) + PieceMark(p)
  {
    match p
    case Said(text) => PushTextMarks(c, r, acc, text);
    case Called(_, calls) =>
      PushCallsMarks(c, r, acc, calls, |calls|);
      assert calls[..|calls|] == calls;
  }

  lemma {:induction false} PushPiecesMarks(c: Config, r: Rewriting, acc: seq<Segment>, pieces: seq<Piece>)
    ensures
      Marks(Segmented(c, r, PushPieces(acc, pieces)).content) == Marks(Segmented(c, r, acc).content) + PieceMarks(pieces)
  {
    var marks := Marks(Segmented(c, r, acc).content);
    if pieces == [] {
      Sequences.ConcatEmpty(marks);
    } else {
      var short, last := pieces[..|pieces| - 1], pieces[|pieces| - 1];
      PushPiecesMarks(c, r, acc, short);
      PushPieceMarks(c, r, PushPieces(acc, short), last);
      Sequences.Associate(marks, PieceMarks(short), PieceMark(last));
    }
  }

  lemma PiecesMarks(c: Config, r: Rewriting, pieces: seq<Piece>)
    ensures Marks(Segmented(c, r, PushPieces([], pieces)).content) == Marks(r.content) + PieceMarks(pieces)
  {
    PushPiecesMarks(c, r, [], pieces);
    Sequences.ConcatEmpty(r.content);
  }

  // ---------- Readings ----------

  /** One region, from an opening tag to the first closing tag after it. */
  ghost predicate Tight(region: string) {
    FindWrapper(region, 0).Some? && FindWrapper(region, 0).value.start == 0 && FindWrapper(region, 0).value.end == |region|
  }

  ghost predicate ProperPiece(parse: Parser, p: Piece) {
    p.Called? ==> p.calls == parse(p.region) && p.calls != [] && Tight(p.region)
  }

  /** Whatever was taken for a call is a region that is recognised as such. */
  ghost predicate Proper(parse: Parser, pieces: seq<Piece>) {
    forall p | p in pieces :: ProperPiece(parse, p)
  }

  /** A reading begins with a piece, and the later pieces follow. */
  ghost predicate Begins(acc: seq<Segment>, pieces: seq<Piece>, first: Piece, later: seq<Piece>) {
    && Spelled(pieces) == Spelling(first) + Spelled(later)
    && PieceMarks(pieces) == PieceMark(first) + PieceMarks(later)
    && PushPieces(acc, pieces) == PushPieces(PushPiece(acc, first), later)
  }

  lemma ConsBegins(acc: seq<Segment>, first: Piece, later: seq<Piece>)
    ensures Begins(acc, [first] + later, first, later)
  {
    SpelledConcat([first], later);
    SpelledOne(first);
    PushPiecesConcat(acc, [first], later);
    PushOne(acc, first);
    PieceMarksConcat([first], later);
    PieceMarksOne(first);
  }

  lemma PieceMarksOne(p: Piece)
    ensures PieceMarks([p]) == PieceMark(p)
  {
    assert [p][..0] == [];
  }

  lemma FirstPiece(acc: seq<Segment>, pieces: seq<Piece>)
    requires pieces != []
    ensures Begins(acc, pieces, pieces[0], pieces[1..])
  {
    assert pieces == [pieces[0]] + pieces[1..];
    ConsBegins(acc, pieces[0], pieces[1..]);
  }

  lemma {:induction false} PieceMarksConcat(a: seq<Piece>, b: seq<Piece>)
    ensures PieceMarks(a + b) == PieceMarks(a) + PieceMarks(b)
  {
    if b == [] {
      Sequences.ConcatEmpty(a);
    } else {
      PieceMarksConcat(a, b[..|b| - 1]);
      Sequences.ConcatLast(a, b);
      Sequences.Associate(PieceMarks(a), PieceMarks(b[..|b| - 1]), PieceMark(b[|b| - 1]));
    }
  }

  /** What two readings come to: the same, with the rest as text, or not. */
  ghost predicate AgreeOrDiverge(acc: seq<Segment>, p: seq<Piece>, rest: string, q: seq<Piece>) {
    PushText(PushPieces(acc, p), rest) == PushPieces(acc, q) || Diverged(PieceMarks(p), PieceMarks(q))
  }

  /** Readings that begin in the same way. */
  lemma SameBeginning(acc: seq<Segment>, p: seq<Piece>, p': seq<Piece>, rest: string, q: seq<Piece>, q': seq<Piece>, x: Piece, y: Piece)
    requires Begins(acc, p, x, p') && Begins(acc, q, y, q')
    requires PieceMark(x) == PieceMark(y) && PushPiece(acc, x) == PushPiece(acc, y)
    requires AgreeOrDiverge(PushPiece(acc, x), p', rest, q')
    ensures AgreeOrDiverge(acc, p, rest, q)
  {
    if Diverged(PieceMarks(p'), PieceMarks(q')) {
      DivergedLater(PieceMark(x), PieceMarks(p'), PieceMarks(q'));
    }
  }

  /** A piece of text may be taken as two. */
  lemma SaidInTwo(acc: seq<Segment>, pieces: seq<Piece>, text: string, later: seq<Piece>, n: nat)
    requires Begins(acc, pieces, Said(text), later) && n <= |text|
    ensures Begins(acc, pieces, Said(text[..n]), [Said(text[n..])] + later)
  {
    var t, u := text[..n], text[n..];
    ConsBegins(PushText(acc, t), Said(u), later);
    Sequences.Cut(text, n);
    PushTextTwice(acc, t, u);
    LettersConcat(t, u);
    Sequences.Associate(t, u, Spelled(later));
    Sequences.Associate(Letters(t), Letters(u), PieceMarks(later));
  }

  /** Saying nothing is no piece. */
  lemma NothingBegins(acc: seq<Segment>, pieces: seq<Piece>, later: seq<Piece>)
    requires Begins(acc, pieces, Said(""), later)
    ensures Spelled(pieces) == Spelled(later) && PieceMarks(pieces) == PieceMarks(later)
    ensures PushPieces(acc, pieces) == PushPieces(acc, later)
  {
    assert "" + Spelled(later) == Spelled(later);
    assert [] + PieceMarks(later) == PieceMarks(later);
  }

  lemma ProperRest(parse: Parser, pieces: seq<Piece>)
    requires pieces != [] && Proper(parse, pieces)
    ensures ProperPiece(parse, pieces[0]) && Proper(parse, pieces[1..])
  {
    forall p | p in pieces[1..] ensures ProperPiece(parse, p) {
      assert p in pieces;
    }
  }

  lemma SaidIsProper(parse: Parser, text: string, pieces: seq<Piece>)
    requires Proper(parse, pieces)
    ensures Proper(parse, [Said(text)] + pieces)
  {
  }

  /** Two tight regions that a text begins with are one. */
  lemma SameRegion(r: string, r': string, a: string, b: string)
    requires Tight(r) && Tight(r') && r + a == r' + b
    ensures r == r' && a == b
  {
    FindWrapperStable(r, a);
    FindWrapperStable(r', b);
    assert (r + a)[..|r|] == r && (r' + b)[..|r'|] == r' && (r + a)[|r|..] == a && (r' + b)[|r'|..] == b;
  }

  lemma SamePrefix(t: string, u: string, a: string, b: string)
    requires t + a == u + b && |t| == |u|
    ensures t == u && a == b
  {
    assert (t + a)[..|t|] == t && (u + b)[..|t|] == u && (t + a)[|t|..] == a && (u + b)[|u|..] == b;
  }

  lemma TightIsTagged(region: string, more: string)
    requires Tight(region)
    ensures region != "" && FindOpen(region + more).Some?
  {
    var w := FindWrapper(region, 0).value;
    TagAtInside(region, more, w.start, w.inner, false);
  }

  lemma {:induction false} ReadingsAgreeOrDiverge(parse: Parser, acc: seq<Segment>, p: seq<Piece>, rest: string, q: seq<Piece>)
    requires Proper(parse, p) && Proper(parse, q) && FindOpen(rest).None?
    requires Spelled(p) + rest == Spelled(q)
    ensures AgreeOrDiverge(acc, p, rest, q)
    decreases |p| + |q|, 1
  {
    if p == [] {
      assert "" + rest == rest;
      RestIsRead(parse, acc, rest, q);
    } else if q == [] {
      NothingRead(parse, acc, p, rest);
    } else {
      ProperRest(parse, p);
      ProperRest(parse, q);
      FirstPiece(acc, p);
      FirstPiece(acc, q);
      if p[0] == Said("") {
        NothingBegins(acc, p, p[1..]);
        ReadingsAgreeOrDiverge(parse, acc, p[1..], rest, q);
      } else if q[0] == Said("") {
        NothingBegins(acc, q, q[1..]);
        ReadingsAgreeOrDiverge(parse, acc, p, rest, q[1..]);
      } else {
        FirstOfEach(parse, acc, p, p[0], p[1..], rest, q, q[0], q[1..]);
      }
    }
  }

  /** A reading of nothing says nothing. */
  lemma {:induction false} NothingRead(parse: Parser, acc: seq<Segment>, p: seq<Piece>, rest: string)
    requires Proper(parse, p) && Spelled(p) + rest == ""
    ensures PushText(PushPieces(acc, p), rest) == acc
  {
    if p != [] {
      ProperRest(parse, p);
      FirstPiece(acc, p);
      if p[0].Called? {
        TightIsTagged(p[0].region, "");
        assert false;
      }
      NothingBegins(acc, p, p[1..]);
      NothingRead(parse, acc, p[1..], rest);
    }
  }

  /** With nothing read on one side, the other side can only have said the rest. */
  lemma {:induction false} RestIsRead(parse: Parser, acc: seq<Segment>, rest: string, q: seq<Piece>)
    requires Proper(parse, q) && FindOpen(rest).None? && rest == Spelled(q)
    ensures PushText(acc, rest) == PushPieces(acc, q)
    decreases |q|
  {
    if q != [] {
      ProperRest(parse, q);
      FirstPiece(acc, q);
      var later := Spelled(q[1..]);
      match q[0]
      case Said(text) =>
        SamePrefix(text, rest[..|text|], later, rest[|text|..]);
        StillUntagged(rest, |text|);
        RestIsRead(parse, PushText(acc, text), later, q[1..]);
        PushTextTwice(acc, text, later);
      case Called(region, _) =>
        TightIsTagged(region, later);
        assert false;
    }
  }

  lemma FirstOfEach(parse: Parser, acc: seq<Segment>, p: seq<Piece>, x: Piece, p': seq<Piece>, rest: string,
                    q: seq<Piece>, y: Piece, q': seq<Piece>)
    requires Begins(acc, p, x, p') && Begins(acc, q, y, q') && x != Said("") && y != Said("")
    requires ProperPiece(parse, x) && ProperPiece(parse, y) && Proper(parse, p') && Proper(parse, q')
    requires FindOpen(rest).None? && Spelled(p) + rest == Spelled(q)
    ensures AgreeOrDiverge(acc, p, rest, q)
    decreases |p'| + |q'| + 2, 0
  {
    Sequences.Associate(Spelling(x), Spelled(p'), rest);
    if x.Called? && y.Called? {
      SameRegion(x.region, y.region, Spelled(p') + rest, Spelled(q'));
      ReadingsAgreeOrDiverge(parse, PushPiece(acc, x), p', rest, q');
      SameBeginning(acc, p, p', rest, q, q', x, y);
    } else if x.Said? && y.Said? {
      if |x.text| <= |y.text| {
        ShorterFirst(parse, acc, p, x.text, p', rest, q, y.text, q');
      } else {
        LongerFirst(parse, acc, p, x.text, p', rest, q, y.text, q');
      }
    } else {
      assert PieceMarks(p)[0] == PieceMark(x)[0] && PieceMarks(q)[0] == PieceMark(y)[0];
    }
  }

  lemma ShorterFirst(parse: Parser, acc: seq<Segment>, p: seq<Piece>, t: string, p': seq<Piece>, rest: string,
                     q: seq<Piece>, u: string, q': seq<Piece>)
    requires Begins(acc, p, Said(t), p') && Begins(acc, q, Said(u), q') && |t| <= |u|
    requires Proper(parse, p') && Proper(parse, q') && FindOpen(rest).None?
    requires t + (Spelled(p') + rest) == u + Spelled(q')
    ensures AgreeOrDiverge(acc, p, rest, q)
    decreases |p'| + |q'| + 1, 2
  {
    var later := [Said(u[|t|..])] + q';
    SaidInTwo(acc, q, u, q', |t|);
    CutSpelled(u, q', |t|);
    SamePrefix(t, u[..|t|], Spelled(p') + rest, Spelled(later));
    SaidIsProper(parse, u[|t|..], q');
    ReadingsAgreeOrDiverge(parse, PushText(acc, t), p', rest, later);
    SameBeginning(acc, p, p', rest, q, later, Said(t), Said(u[..|t|]));
  }

  lemma CutSpelled(text: string, later: seq<Piece>, n: nat)
    requires n <= |text|
    ensures text + Spelled(later) == text[..n] + Spelled([Said(text[n..])] + later)
  {
    ConsBegins([], Said(text[n..]), later);
    Sequences.Cut(text, n);
    Sequences.Associate(text[..n], text[n..], Spelled(later));
  }

  lemma LongerFirst(parse: Parser, acc: seq<Segment>, p: seq<Piece>, t: string, p': seq<Piece>, rest: string,
                    q: seq<Piece>, u: string, q': seq<Piece>)
    requires Begins(acc, p, Said(t), p') && Begins(acc, q, Said(u), q') && |u| <= |t|
    requires Proper(parse, p') && Proper(parse, q') && FindOpen(rest).None?
    requires t + (Spelled(p') + rest) == u + Spelled(q')
    ensures AgreeOrDiverge(acc, p, rest, q)
    decreases |p'| + |q'| + 1, 2
  {
    var later := [Said(t[|u|..])] + p';
    SaidInTwo(acc, p, t, p', |u|);
    CutSpelled(t, p', |u|);
    Sequences.Associate(t, Spelled(p'), rest);
    Sequences.Associate(t[..|u|], Spelled(later), rest);
    SamePrefix(t[..|u|], u, Spelled(later) + rest, Spelled(q'));
    SaidIsProper(parse, t[|u|..], p');
    ReadingsAgreeOrDiverge(parse, PushText(acc, u), later, rest, q');
    SameBeginning(acc, p, later, rest, q, q', Said(t[..|u|]), Said(u));
  }

  // ---------- The readings at hand ----------

  lemma ProperConcat(parse: Parser, a: seq<Piece>, b: seq<Piece>)
    requires Proper(parse, a) && Proper(parse, b)
    ensures Proper(parse, a + b)
  {
  }

  lemma {:induction false} PassIsProper(c: Config, st: Rewriter)
    requires st.mode == Pass && st.cap == ""
    ensures Proper(c.parse, PassScan(c, st).pieces)
    decreases 2 * |st.scan| + 1
  {
    if FindOpen(st.scan).Some? {
      var begun := Captured(st);
      CapturedAtTheFront(st.scan);
      CaptureIsProper(c, begun.st);
      ProperConcat(c.parse, begun.pieces, CaptureScan(c, begun.st).pieces);
    }
  }

  lemma {:induction false} CaptureIsProper(c: Config, st: Rewriter)
    requires st.mode == Capture && FindOpen(st.cap).Some? && FindOpen(st.cap).value.start == 0
    ensures Proper(c.parse, CaptureScan(c, st).pieces)
    decreases 2 * |st.cap|
  {
    if FindWrapper(st.cap, 0).Some? {
      var w, s := FindWrapper(st.cap, 0).value, FindOpen(st.cap).value;
      FirstTagUnique(st.cap, 0, s.start, s.end, w.start, w.inner, false);
      var region, rest := st.cap[w.start..w.end], st.cap[w.end..];
      FrontIsTight(st.cap, w);
      var resolved := Resolve(c, st, region);
      ResolveIsProper(c, st, region);
      if rest != "" {
        var passing := resolved.st.(cap := "", mode := Pass, curOut := None, scan := rest);
        PassIsProper(c, passing);
        ProperConcat(c.parse, resolved.pieces, PassScan(c, passing).pieces);
      }
    }
  }

  lemma FrontIsTight(cap: string, w: Wrapper)
    requires FindWrapper(cap, 0) == Some(w) && w.start == 0
    ensures Tight(cap[w.start..w.end])
  {
    var region, rest := cap[..w.end], cap[w.end..];
    assert region + rest == cap && cap[w.start..w.end] == region;
    FindWrapperInside(region, rest);
  }

  lemma ResolveIsProper(c: Config, st: Rewriter, region: string)
    requires Tight(region)
    ensures Proper(c.parse, Resolve(c, st, region).pieces)
  {
  }

  lemma TextIsProper(c: Config, st: Rewriter, text: string)
    requires Settled(st)
    ensures Proper(c.parse, OnText(c, st, text).pieces)
  {
    match st.mode
    case Pass => PassIsProper(c, st.(scan := st.scan + text));
    case Capture =>
      FindOpenStable(st.cap, text);
      CaptureIsProper(c, st.(cap := st.cap + text));
  }

  lemma StopIsProper(parse: Parser, st: Rewriter)
    ensures Proper(parse, OnBlockStop(st).pieces)
  {
  }
}
