/**
  The streaming rewriter's pieces against the one-shot segmentation of the whole text.

  At every moment what was found so far, together with the segmentation of what is held and of everything still to
  come, is the segmentation of the whole. Each step of the scan keeps that.
 */
module DsmlRefinement {
  import opened Wrappers
  import Sequences
  import opened Utf8
  import opened DsmlText
  import opened DsmlLocality
  import opened DsmlRewriter

  // ---------- Joining adjacent texts ----------

  function PushText(acc: seq<Segment>, text: string): seq<Segment> {
    if text == "" then acc
    else if acc != [] && acc[|acc| - 1].TextSegment? then
      acc[..|acc| - 1] + [TextSegment(acc[|acc| - 1].text + text)]
    else acc + [TextSegment(text)]
  }

  lemma PushTextTwice(acc: seq<Segment>, a: string, b: string)
    ensures PushText(PushText(acc, a), b) == PushText(acc, a + b)
  {
    if a == "" {
      assert a + b == b;
    } else if b == "" {
      assert a + b == a;
    } else if acc != [] && acc[|acc| - 1].TextSegment? {
      assert acc[|acc| - 1].text + (a + b) == acc[|acc| - 1].text + a + b;
    }
  }

  function PushRegion(parse: Parser, acc: seq<Segment>, region: string): seq<Segment> {
    var calls := parse(region);
    if calls == [] then PushText(acc, region) else acc + Tools(calls)
  }

  function PushPiece(acc: seq<Segment>, p: Piece): seq<Segment> {
    match p
    case Said(text) => PushText(acc, text)
    case Called(_, calls) => acc + Tools(calls)
  }

  function PushPieces(acc: seq<Segment>, pieces: seq<Piece>): seq<Segment> {
    if pieces == [] then acc
    else PushPiece(PushPieces(acc, pieces[..|pieces| - 1]), pieces[|pieces| - 1])
  }

  lemma {:induction false} PushPiecesConcat(acc: seq<Segment>, a: seq<Piece>, b: seq<Piece>)
    ensures PushPieces(acc, a + b) == PushPieces(PushPieces(acc, a), b)
  {
    if b == [] {
      Sequences.ConcatEmpty(a);
    } else {
      PushPiecesConcat(acc, a, b[..|b| - 1]);
      Sequences.ConcatLast(a, b);
    }
  }

  lemma PushOne(acc: seq<Segment>, p: Piece)
    ensures PushPieces(acc, [p]) == PushPiece(acc, p)
  {
    assert [p][..0] == [];
  }

  // ---------- Dividing a whole text ----------

  /** A text around its first wrapper. */
  datatype Parts = Parts(front: string, region: string, rest: string)

  ghost function Split(text: string): (r: Option<Parts>)
    ensures r.Some? ==> |r.value.rest| < |text|
  {
    match FindWrapper(text, 0)
    case None => None
    case Some(w) => Some(Parts(text[..w.start], text[w.start..w.end], text[w.end..]))
  }

  /** Pushes a text's parts one wrapper at a time. */
  ghost function Divide(parse: Parser, acc: seq<Segment>, text: string): seq<Segment>
    decreases |text|
  {
    match Split(text)
    case None => PushText(acc, text)
    case Some(p) => Divide(parse, PushRegion(parse, PushText(acc, p.front), p.region), p.rest)
  }

  lemma SplitPast(t: string, u: string)
    requires Untagged(t, u)
    ensures Split(t + u).Some? <==> Split(u).Some?
    ensures Split(u).Some? ==> Split(t + u) == Some(Split(u).value.(front := t + Split(u).value.front))
  {
    FindWrapperPast(t, u);
    if FindWrapper(u, 0).Some? {
      var w := FindWrapper(u, 0).value;
      SlicesPast(t, u, w.start, w.end);
    }
  }

  lemma SlicesPast(t: string, u: string, start: nat, end: nat)
    requires start <= end <= |u|
    ensures (t + u)[..|t| + start] == t + u[..start]
    ensures (t + u)[|t| + start..|t| + end] == u[start..end]
    ensures (t + u)[|t| + end..] == u[end..]
  {
  }

  /** A complete wrapper at the front is split off whatever follows. */
  lemma SplitFront(t: string, u: string)
    requires FindWrapper(t, 0).Some? && FindWrapper(t, 0).value.start == 0
    ensures var end := FindWrapper(t, 0).value.end; Split(t + u) == Some(Parts("", t[..end], t[end..] + u))
  {
    FindWrapperStable(t, u);
    SlicesFront(t, u, FindWrapper(t, 0).value.end);
  }

  lemma SlicesFront(t: string, u: string, end: nat)
    requires end <= |t|
    ensures (t + u)[..0] == "" && (t + u)[0..end] == t[..end] && (t + u)[end..] == t[end..] + u
  {
  }

  lemma SplitFrom(text: string, from: nat)
    requires from <= |text|
    ensures match FindWrapper(text, from)
            case None => Split(text[from..]).None?
            case Some(w) => Split(text[from..]) == Some(Parts(text[from..w.start], text[w.start..w.end], text[w.end..]))
  {
    var t, u := text[..from], text[from..];
    assert t + u == text;
    FindWrapperShift(t, u);
    if FindWrapper(u, 0).Some? {
      var w := FindWrapper(u, 0).value;
      SlicesPast(t, u, w.start, w.end);
      assert u[..w.start] == text[from..from + w.start];
    }
  }

  lemma {:induction false} DivideFrom(parse: Parser, done: seq<Segment>, text: string, pos: nat, from: nat)
    requires pos <= from <= |text|
    requires done == [] || done[|done| - 1].ToolSegment?
    ensures Divide(parse, PushText(done, text[pos..from]), text[from..])
            == done + SegmentsFrom(text, parse, pos, from)
    decreases |text| - from
  {
    SplitFrom(text, from);
    match FindWrapper(text, from)
    case None =>
      PushSlices(done, text, pos, from, |text|);
      assert text[from..|text|] == text[from..] && text[pos..|text|] == text[pos..];
    case Some(w) =>
      var calls := parse(text[w.start..w.end]);
      PushSlices(done, text, pos, from, w.start);
      SegmentsStep(done, text, parse, pos, from);
      if calls == [] {
        PushSlices(done, text, pos, w.start, w.end);
        DivideFrom(parse, done, text, pos, w.end);
      } else {
        ToolsPushed(done, text[pos..w.start], calls);
        var done' := done + TextIfAny(text[pos..w.start]) + Tools(calls);
        assert PushText(done', text[w.end..w.end]) == done';
        DivideFrom(parse, done', text, w.end, w.end);
      }
  }

  lemma PushSlices(acc: seq<Segment>, text: string, i: nat, j: nat, k: nat)
    requires i <= j <= k <= |text|
    ensures PushText(PushText(acc, text[i..j]), text[j..k]) == PushText(acc, text[i..k])
  {
    PushTextTwice(acc, text[i..j], text[j..k]);
    assert text[i..j] + text[j..k] == text[i..k];
  }

  lemma ToolsPushed(done: seq<Segment>, text: string, calls: seq<Call>)
    requires done == [] || done[|done| - 1].ToolSegment?
    requires calls != []
    ensures var r := done + TextIfAny(text) + Tools(calls);
            r == PushText(done, text) + Tools(calls) && r[|r| - 1].ToolSegment?
  {
  }

  /** Dividing a text and joining adjacent texts gives its one-shot segments. */
  lemma DivideIsSegments(parse: Parser, text: string)
    ensures Divide(parse, [], text) == Segments(text, parse)
  {
    DivideFrom(parse, [], text, 0, 0);
    assert text[0..] == text && text[0..0] == "";
  }

  /** Text in which no opening tag starts may be pushed ahead of what follows it. */
  lemma DividePast(parse: Parser, acc: seq<Segment>, t: string, u: string)
    requires Untagged(t, u)
    ensures Divide(parse, acc, t + u) == Divide(parse, PushText(acc, t), u)
  {
    SplitPast(t, u);
    PushTextTwice(acc, t, if Split(u).Some? then Split(u).value.front else u);
  }

  lemma DivideFront(parse: Parser, acc: seq<Segment>, t: string, u: string)
    requires FindWrapper(t, 0).Some? && FindWrapper(t, 0).value.start == 0
    ensures var end := FindWrapper(t, 0).value.end;
            Divide(parse, acc, t + u) == Divide(parse, PushRegion(parse, acc, t[..end]), t[end..] + u)
  {
    SplitFront(t, u);
  }

  // ---------- Room to capture ----------

  /**
    A region is harmless when it fits the capture buffer up to its last character, or when neither it nor any
    part of it that is left after the buffer was given up, from an opening tag to its end, is recognised.
   */
  ghost predicate Fits(parse: Parser, region: string) {
    || ByteLen(region) <= CAP + 1
    || forall i: nat, e: nat | TagAt(region, i, e, false) && (i == 0 || ByteLen(region[..i]) > CAP) :: parse(region[i..]) == []
  }

  ghost predicate Roomy(parse: Parser, text: string)
    decreases |text|
  {
    match Split(text)
    case Some(p) => Fits(parse, p.region) && Roomy(parse, p.rest)
    case None => true
  }

  /** Either nothing follows `text`, or every region of it and of what follows is harmless. */
  ghost predicate Foreseen(parse: Parser, text: string, future: string) {
    future == "" || Roomy(parse, text + future)
  }

  lemma RoomyPast(parse: Parser, t: string, u: string)
    requires Untagged(t, u)
    ensures Roomy(parse, t + u) == Roomy(parse, u)
  {
    SplitPast(t, u);
  }

  lemma RoomyFront(parse: Parser, t: string, u: string)
    requires FindWrapper(t, 0).Some? && FindWrapper(t, 0).value.start == 0 && Foreseen(parse, t, u)
    ensures Foreseen(parse, t[FindWrapper(t, 0).value.end..], u)
  {
    SplitFront(t, u);
  }

  lemma OpenIsNotClose(text: string, start: nat, end: nat, end': nat)
    requires TagAt(text, start, end, true)
    ensures !TagAt(text, start, end', false)
  {
    if TagAt(text, start, end', false) {
      TagShape(text, start, end, true);
      TagShape(text, start, end', false);
      TagsDiffer(text[start..end]);
    }
  }

  /** After its opening tag, the first wrapper holds no opening tag that its closing tag does not also close. */
  lemma InnerTag(text: string, w: Wrapper, i: nat, e: nat)
    requires FindWrapper(text, 0) == Some(w) && w.start == 0 < i < w.end && TagAt(text, i, e, false)
    ensures w.inner <= i && e <= w.outer
  {
    TagShape(text, 0, w.inner, false);
    TagShape(text, i, e, false);
    TagShape(text, w.outer, w.end, true);
    if i == w.outer {
      OpenIsNotClose(text, i, w.end, e);
    }
  }

  /** A buffer that outgrew its limit inside a harmless region, or with no region to complete, may be given up. */
  lemma GivingUpIsHarmless(parse: Parser, acc: seq<Segment>, t: string, u: string)
    requires FindOpen(t).Some? && FindOpen(t).value.start == 0 && FindWrapper(t, 0).None?
    requires ByteLen(t) > CAP && Foreseen(parse, t, u)
    ensures Divide(parse, acc, t + u) == Divide(parse, PushText(acc, t), u)
    ensures Foreseen(parse, "", u)
  {
    match FindWrapper(t + u, 0)
    case None =>
      NoWrapperLater(t, u);
      PushTextTwice(acc, t, u);
      assert "" + u == u;
    case Some(w) =>
      RegionStraddles(t, u, w);
      GivingUpInside(parse, acc, t, u, w);
  }

  lemma NoWrapperLater(t: string, u: string)
    requires FindWrapper(t + u, 0).None?
    ensures FindWrapper(u, 0).None?
  {
    if FindWrapper(u, 0).Some? {
      var w := FindWrapper(u, 0).value;
      TagAtShift(t, u, w.start, w.inner, false);
      TagAtShift(t, u, w.outer, w.end, true);
      assert IsWrapper(t + u, |t| + w.start, |t| + w.end);
      FindWrapperIsLeftmostShortest(t + u, 0, |t| + w.start, |t| + w.end);
    }
  }

  lemma RegionStraddles(t: string, u: string, w: Wrapper)
    requires FindOpen(t).Some? && FindOpen(t).value.start == 0 && FindWrapper(t, 0).None?
    requires FindWrapper(t + u, 0) == Some(w)
    ensures w.start == 0 && |t| < w.end && u != ""
  {
    FindOpenStable(t, u);
    var s := FindOpen(t).value;
    FirstTagUnique(t + u, 0, s.start, s.end, w.start, w.inner, false);
    if w.end <= |t| {
      FindWrapperInside(t, u);
    }
  }

  lemma GivingUpInside(parse: Parser, acc: seq<Segment>, t: string, u: string, w: Wrapper)
    requires FindWrapper(t + u, 0) == Some(w) && w.start == 0 && |t| < w.end && t != ""
    requires ByteLen(t) > CAP && Roomy(parse, t + u)
    ensures Divide(parse, acc, t + u) == Divide(parse, PushText(acc, t), u)
    ensures Roomy(parse, "" + u)
  {
    var n := w.end - |t|;
    var tail, rest := u[..n], u[n..];
    SplitStraddling(t, u, w);
    assert u == tail + rest && "" + u == u;
    Outgrown(parse, t, tail);
    assert (t + tail)[0..] == t + tail;
    PushTextTwice(acc, t, tail);
    if FindOpen(u).Some? && FindOpen(u).value.start < n {
      GivingUpBeforeTag(parse, acc, t, u, w);
    } else {
      NoTagInTail(u, n);
      DividePast(parse, PushText(acc, t), tail, rest);
      RoomyPast(parse, tail, rest);
    }
  }

  lemma SplitStraddling(t: string, u: string, w: Wrapper)
    requires FindWrapper(t + u, 0) == Some(w) && w.start == 0 && |t| < w.end
    ensures
      var n := w.end - |t|;
      Split(t + u) == Some(Parts("", t + u[..n], u[n..])) && TagAt(t + u[..n], 0, w.inner, false)
  {
    var n := w.end - |t|;
    assert (t + u)[0..w.end] == t + u[..n] && (t + u)[w.end..] == u[n..] && (t + u)[..0] == "";
    assert (t + u[..n]) + u[n..] == t + u;
    TagAtInside(t + u[..n], u[n..], 0, w.inner, false);
  }

  lemma NoTagInTail(u: string, n: nat)
    requires n <= |u| && (FindOpen(u).Some? ==> n <= FindOpen(u).value.start)
    ensures Untagged(u[..n], u[n..])
  {
    assert u[..n] + u[n..] == u;
  }

  /** A harmless region cut after too many bytes: nothing in it is recognised from there on. */
  ghost predicate Deaf(parse: Parser, t: string, tail: string) {
    forall i: nat, e: nat | TagAt(t + tail, i, e, false) && (i == 0 || |t| <= i) :: parse((t + tail)[i..]) == []
  }

  lemma Outgrown(parse: Parser, t: string, tail: string)
    requires tail != "" && ByteLen(t) > CAP && Fits(parse, t + tail)
    ensures Deaf(parse, t, tail)
  {
    ByteLenConcat(t, tail);
    forall i: nat, e: nat | TagAt(t + tail, i, e, false) && |t| <= i ensures ByteLen((t + tail)[..i]) > CAP {
      assert (t + tail)[..i] == t + tail[..i - |t|];
      ByteLenConcat(t, tail[..i - |t|]);
    }
  }

  /** The rest of a given-up region that still holds an opening tag. */
  lemma GivingUpBeforeTag(parse: Parser, acc: seq<Segment>, t: string, u: string, w: Wrapper)
    requires FindWrapper(t + u, 0) == Some(w) && w.start == 0 && |t| < w.end && t != ""
    requires FindOpen(u).Some? && FindOpen(u).value.start < w.end - |t|
    requires Deaf(parse, t, u[..w.end - |t|]) && Roomy(parse, u[w.end - |t|..])
    ensures
      var n := w.end - |t|;
      && Divide(parse, PushText(acc, t), u) == Divide(parse, PushText(acc, t + u[..n]), u[n..])
      && Roomy(parse, u)
  {
    var n, s := w.end - |t|, FindOpen(u).value;
    SplitInside(t, u, w);
    SliceOfSlice(u, s.start, n);
    DeafInside(parse, t, u[..n], s.start, s.end, u[n..]);
    PushThree(acc, t, u, s.start, n);
  }

  lemma SliceOfSlice(u: string, i: nat, n: nat)
    requires i <= n <= |u|
    ensures u[..n][i..] == u[i..n] && u[..n] + u[n..] == u
  {
  }

  lemma PushThree(acc: seq<Segment>, t: string, u: string, i: nat, n: nat)
    requires i <= n <= |u|
    ensures PushText(PushText(PushText(acc, t), u[..i]), u[i..n]) == PushText(acc, t + u[..n])
  {
    PushTextTwice(acc, t, u[..i]);
    PushTextTwice(acc, t + u[..i], u[i..n]);
    assert t + u[..i] + u[i..n] == t + u[..n];
  }

  lemma SplitInside(t: string, u: string, w: Wrapper)
    requires FindWrapper(t + u, 0) == Some(w) && w.start == 0 && |t| < w.end && t != ""
    requires FindOpen(u).Some? && FindOpen(u).value.start < w.end - |t|
    ensures
      var n, s := w.end - |t|, FindOpen(u).value;
      Split(u) == Some(Parts(u[..s.start], u[s.start..n], u[n..])) && s.end <= n
  {
    var s := FindOpen(u).value;
    TagAtShift(t, u, s.start, s.end, false);
    InnerTag(t + u, w, |t| + s.start, |t| + s.end);
    FirstTagShift(t, u, s.end, w.outer - |t|, w.end - |t|, true);
    FindWrapperIs(u, 0, Wrapper(s.start, s.end, w.outer - |t|, w.end - |t|));
  }

  lemma DeafInside(parse: Parser, t: string, tail: string, start: nat, end: nat, rest: string)
    requires Deaf(parse, t, tail) && start < |tail| && end <= |tail + rest| && TagAt(tail + rest, start, end, false)
    requires end <= |tail|
    ensures parse(tail[start..]) == [] && Fits(parse, tail[start..])
  {
    var region, inner := t + tail, tail[start..];
    assert region == (t + tail[..start]) + inner;
    TagAtInside(tail, rest, start, end, false);
    TagAtShift(t, tail, start, end, false);
    assert region[|t| + start..] == inner;
    forall i: nat, e: nat | TagAt(inner, i, e, false) ensures parse(inner[i..]) == [] {
      TagAtShift(t + tail[..start], inner, i, e, false);
      assert region[|t| + start + i..] == inner[i..];
    }
  }

  // ---------- One step ----------

  /** What the buffers hold between steps. */
  ghost predicate Settled(st: Rewriter) {
    match st.mode
    case Pass => st.cap == "" && FindOpen(st.scan).None?
    case Capture =>
      && st.scan == "" && st.curOut.None?
      && FindOpen(st.cap).Some? && FindOpen(st.cap).value.start == 0
      && FindWrapper(st.cap, 0).None?
  }

  function Held(st: Rewriter): string {
    if st.mode == Pass then st.scan else st.cap
  }

  /** From the text held before a step: what the step let go, then the text held after it. */
  ghost predicate Advances(parse: Parser, acc: seq<Segment>, before: string, s: Step, future: string) {
    && Settled(s.st)
    && Divide(parse, acc, before + future) == Divide(parse, PushPieces(acc, s.pieces), Held(s.st) + future)
    && Foreseen(parse, Held(s.st), future)
  }

  lemma AdvancesAfter(parse: Parser, acc: seq<Segment>, t: string, first: Step, mid: string, second: Step, future: string)
    requires Divide(parse, acc, t + future) == Divide(parse, PushPieces(acc, first.pieces), mid + future)
    requires Advances(parse, PushPieces(acc, first.pieces), mid, second, future)
    ensures Advances(parse, acc, t, After(first, second), future)
  {
    PushPiecesConcat(acc, first.pieces, second.pieces);
  }

  lemma {:induction false} PassAdvances(c: Config, st: Rewriter, acc: seq<Segment>, future: string)
    requires st.mode == Pass && st.cap == ""
    requires Foreseen(c.parse, st.scan, future)
    ensures Advances(c.parse, acc, st.scan, PassScan(c, st), future)
    decreases 2 * |st.scan| + 1
  {
    match FindOpen(st.scan)
    case Some(found) =>
      var begun := Captured(st);
      CapturedLetsGo(c.parse, acc, st, future);
      CaptureAdvances(c, begun.st, PushPieces(acc, begun.pieces), future);
      AdvancesAfter(c.parse, acc, st.scan, begun, begun.st.cap, CaptureScan(c, begun.st), future);
    case None =>
      HoldBackAdvances(c, st, acc, future);
  }

  lemma HoldBackAdvances(c: Config, st: Rewriter, acc: seq<Segment>, future: string)
    requires st.mode == Pass && st.cap == "" && FindOpen(st.scan).None?
    requires Foreseen(c.parse, st.scan, future)
    ensures Advances(c.parse, acc, st.scan, PassScan(c, st), future)
  {
    if |st.scan| > MAX_OPEN - 1 {
      var split := |st.scan| - (MAX_OPEN - 1);
      var before, kept := st.scan[..split], st.scan[split..];
      HoldBackNeverSplitsATag(st.scan, split, future);
      LetGo(c.parse, acc, st.scan, split, future);
      PushOne(acc, Said(before));
      StillUntagged(st.scan, split);
      var s := PassScan(c, st);
      assert s.pieces == [Said(before)] && s.st.scan == kept && s.st.mode == Pass && s.st.cap == "";
    }
  }

  lemma CapturedLetsGo(parse: Parser, acc: seq<Segment>, st: Rewriter, future: string)
    requires FindOpen(st.scan).Some?
    requires Foreseen(parse, st.scan, future)
    ensures var begun := Captured(st);
            && begun.st.mode == Capture && begun.st.scan == "" && begun.st.curOut.None? && |begun.st.cap| <= |st.scan|
            && FindOpen(begun.st.cap).Some? && FindOpen(begun.st.cap).value.start == 0
            && Divide(parse, acc, st.scan + future)
               == Divide(parse, PushPieces(acc, begun.pieces), begun.st.cap + future)
            && Foreseen(parse, begun.st.cap, future)
  {
    var start := FindOpen(st.scan).value.start;
    NoTagBeforeTheFirst(st.scan, future);
    LetGo(parse, acc, st.scan, start, future);
    CapturedAtTheFront(st.scan);
    PushOne(acc, Said(st.scan[..start]));
    assert Captured(st).pieces == if start == 0 then [] else [Said(st.scan[..start])];
  }

  lemma LetGo(parse: Parser, acc: seq<Segment>, t: string, i: nat, future: string)
    requires i <= |t| && Untagged(t[..i], t[i..] + future)
    ensures Divide(parse, acc, t + future) == Divide(parse, PushText(acc, t[..i]), t[i..] + future)
    ensures Foreseen(parse, t, future) == Foreseen(parse, t[i..], future)
  {
    Regroup(t, i, future);
    DividePast(parse, acc, t[..i], t[i..] + future);
    RoomyPast(parse, t[..i], t[i..] + future);
  }

  lemma Regroup(t: string, i: nat, u: string)
    requires i <= |t|
    ensures t + u == t[..i] + (t[i..] + u)
  {
    assert t == t[..i] + t[i..];
  }

  lemma StillUntagged(t: string, i: nat)
    requires i <= |t| && FindOpen(t).None?
    ensures FindOpen(t[i..]).None?
  {
    assert t == t[..i] + t[i..];
    if FindOpen(t[i..]).Some? {
      var s := FindOpen(t[i..]).value;
      TagAtShift(t[..i], t[i..], s.start, s.end, false);
    }
  }

  lemma CapturedAtTheFront(t: string)
    requires FindOpen(t).Some?
    ensures var u := t[FindOpen(t).value.start..]; FindOpen(u).Some? && FindOpen(u).value.start == 0
  {
    NoTagBeforeTheFirst(t, "");
    var i := FindOpen(t).value.start;
    assert t[i..] + "" == t[i..] && t == t[..i] + t[i..];
    FindOpenPast(t[..i], t[i..]);
  }

  lemma {:induction false} CaptureAdvances(c: Config, st: Rewriter, acc: seq<Segment>, future: string)
    requires st.mode == Capture && st.scan == "" && st.curOut.None?
    requires FindOpen(st.cap).Some? && FindOpen(st.cap).value.start == 0
    requires Foreseen(c.parse, st.cap, future)
    ensures Advances(c.parse, acc, st.cap, CaptureScan(c, st), future)
    decreases 2 * |st.cap|
  {
    match FindWrapper(st.cap, 0)
    case None =>
      if ByteLen(st.cap) > CAP {
        GiveUpAdvances(c, st, acc, future);
      }
    case Some(w) =>
      var s := FindOpen(st.cap).value;
      FirstTagUnique(st.cap, 0, s.start, s.end, w.start, w.inner, false);
      var region, rest := st.cap[..w.end], st.cap[w.end..];
      assert st.cap[w.start..w.end] == region;
      DivideFront(c.parse, acc, st.cap, future);
      RoomyFront(c.parse, st.cap, future);
      var resolved := Resolve(c, st, region);
      ResolvePushes(c, st, acc, region);
      var passing := resolved.st.(cap := "", mode := Pass, curOut := None);
      var acc' := PushPieces(acc, resolved.pieces);
      if rest == "" {
        NothingFound();
      } else {
        PassAdvances(c, passing.(scan := rest), acc', future);
        AdvancesAfter(c.parse, acc, st.cap, resolved, rest, PassScan(c, passing.(scan := rest)), future);
      }
  }

  lemma GiveUpAdvances(c: Config, st: Rewriter, acc: seq<Segment>, future: string)
    requires st.mode == Capture && st.scan == "" && st.curOut.None?
    requires FindOpen(st.cap).Some? && FindOpen(st.cap).value.start == 0 && FindWrapper(st.cap, 0).None?
    requires ByteLen(st.cap) > CAP && Foreseen(c.parse, st.cap, future)
    ensures Advances(c.parse, acc, st.cap, CaptureScan(c, st), future)
  {
    GivingUpIsHarmless(c.parse, acc, st.cap, future);
    NothingFound();
    PushOne(acc, Said(st.cap));
    assert "" + future == future;
  }

  lemma NothingFound()
    ensures FindOpen("").None?
  {
  }

  lemma {:induction false} MakeCallsKeeps(c: Config, st: Rewriter, calls: seq<Call>, n: nat)
    requires n <= |calls|
    ensures var (made, _) := MakeCalls(c, st, calls, n);
            made == st.(nextOut := st.nextOut + n, toolCount := st.toolCount + n)
  {
    if n > 0 {
      MakeCallsKeeps(c, st, calls, n - 1);
    }
  }

  lemma ResolvePushes(c: Config, st: Rewriter, acc: seq<Segment>, region: string)
    ensures PushPieces(acc, Resolve(c, st, region).pieces) == PushRegion(c.parse, acc, region)
    ensures Resolve(c, st, region).st.scan == st.scan
  {
    var calls := c.parse(region);
    MakeCallsKeeps(c, st, calls, |calls|);
    if calls == [] {
      PushOne(acc, Said(region));
    } else {
      PushOne(acc, Called(region, calls));
    }
  }

  /** One text delta. */
  lemma TextAdvances(c: Config, st: Rewriter, acc: seq<Segment>, text: string, future: string)
    requires Settled(st) && Foreseen(c.parse, Held(st) + text, future)
    ensures Advances(c.parse, acc, Held(st) + text, OnText(c, st, text), future)
  {
    match st.mode
    case Pass =>
      PassAdvances(c, st.(scan := st.scan + text), acc, future);
    case Capture =>
      FindOpenStable(st.cap, text);
      CaptureAdvances(c, st.(cap := st.cap + text), acc, future);
  }
}
