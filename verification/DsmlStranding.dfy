/**
  Text that a streamed block leaves held back with no block open to put it in: a few characters after a wrapper, or
  after a capture that was given up. Which characters those can be is read off the text alone.
 */
module DsmlStranding {
  import opened Wrappers
  import Sequences
  import opened Utf8
  import opened DsmlText
  import opened DsmlLocality
  import opened DsmlRewriter
  import opened DsmlRefinement

  // ---------- On texts ----------

  /** A text that, fed at once, ends with a region or with a capture given up: nothing is held and no block open. */
  ghost predicate Spent(text: string)
    decreases |text|
  {
    match Split(text)
    case Some(p) => p.rest == "" || Spent(p.rest)
    case None => FindOpen(text).Some? && ByteLen(text[FindOpen(text).value.start..]) > CAP
  }

  /** What follows the last region. */
  ghost function Tail(text: string): string
    decreases |text|
  {
    match Split(text) case Some(p) => Tail(p.rest) case None => text
  }

  /** A spent text, and then text in which no opening tag is complete. */
  ghost predicate SpentAt(text: string, i: nat) {
    i <= |text| && Spent(text[..i]) && FindOpen(text[i..]).None?
  }

  /**
    Some cut of the text leaves just that held back: at most the hold-back's few characters after a spent text; or
    nothing, where no opening tag is complete, or a capture is open at the end, or more characters follow, or none.
   */
  ghost predicate CanLeave(text: string, held: string) {
    if held != "" then
      && |held| < MAX_OPEN && |held| <= |text| && text[|text| - |held|..] == held
      && SpentAt(text, |text| - |held|)
    else
      || FindOpen(text).None?
      || FindOpen(Tail(text)).Some?
      || exists i: nat :: SpentAt(text, i) && (i == |text| || |text| - i >= MAX_OPEN)
  }

  /** A wrapper that reaches beyond `y`, where an opening tag starts, ends where the wrapper from that tag on does. */
  lemma WrapperReaching(y: string, z: string, e: nat, w: Wrapper)
    requires TagAt(z, 0, e, false) && FindWrapper(y + z, 0) == Some(w) && w.end > |y|
    ensures FindWrapper(z, 0).Some? && FindWrapper(z, 0).value.start == 0
    ensures |y| + FindWrapper(z, 0).value.end == w.end
  {
    TagAtShift(y, z, 0, e, false);
    TagShape(y + z, |y|, |y| + e, false);
    TagShape(y + z, w.start, w.inner, false);
    TagShape(y + z, w.outer, w.end, true);
    assert w.start <= |y| && w.inner <= |y| + e;
    if w.outer == |y| {
      OpenIsNotClose(y + z, |y|, w.end, |y| + e);
    }
    assert w.outer >= |y| + e;
    FirstTagShift(y, z, e, w.outer - |y|, w.end - |y|, true);
    FindWrapperIs(z, 0, Wrapper(0, e, w.outer - |y|, w.end - |y|));
  }

  /** Whatever comes before a whole region, or before a capture too big for the buffer, the text is spent. */
  lemma {:induction false} EndsSpent(y: string, z: string, e: nat)
    requires TagAt(z, 0, e, false)
    requires
      match FindWrapper(z, 0)
      case Some(w) => w.start == 0 && w.end == |z|
      case None => ByteLen(z) > CAP
    ensures Spent(y + z)
    decreases |y|
  {
    match FindWrapper(y + z, 0)
    case None =>
      NoWrapperLater(y, z);
      OpenAndOn(y, z, e);
    case Some(w) =>
      if w.end <= |y| {
        assert (y + z)[w.end..] == y[w.end..] + z;
        EndsSpent(y[w.end..], z, e);
      } else {
        WrapperReaching(y, z, e, w);
        assert (y + z)[w.end..] == "";
      }
  }

  lemma OpenAndOn(y: string, z: string, e: nat)
    requires TagAt(z, 0, e, false)
    ensures FindOpen(y + z).Some? && ByteLen((y + z)[FindOpen(y + z).value.start..]) >= ByteLen(z)
  {
    TagAtShift(y, z, 0, e, false);
    var start := FindOpen(y + z).value.start;
    assert (y + z)[start..] == y[start..] + z;
    ByteLenConcat(y[start..], z);
  }

  /** An opening tag without a closing one is in the tail. */
  lemma {:induction false} TailHasOpen(y: string, z: string, e: nat)
    requires TagAt(z, 0, e, false) && FindWrapper(z, 0).None?
    ensures FindOpen(Tail(y + z)).Some?
    decreases |y|
  {
    match FindWrapper(y + z, 0)
    case None =>
      OpenAndOn(y, z, e);
    case Some(w) =>
      if w.end <= |y| {
        assert (y + z)[w.end..] == y[w.end..] + z;
        TailHasOpen(y[w.end..], z, e);
      } else {
        WrapperReaching(y, z, e, w);
      }
  }

  lemma SpentHasOpen(text: string)
    requires Spent(text)
    ensures FindOpen(text).Some?
  {
    if Split(text).Some? {
      var w := FindWrapper(text, 0).value;
      assert TagAt(text, w.start, w.inner, false);
    }
  }

  // ---------- What a rewriter has read of a block ----------

  /** The characters held back of text in which no opening tag is complete. */
  function HeldOf(text: string): string {
    if |text| < MAX_OPEN then text else text[|text| - (MAX_OPEN - 1)..]
  }

  /** Passing text since place i: from the beginning, or since the last region or capture given up. */
  ghost predicate PassingSince(x: string, i: nat, st: Rewriter) {
    && i <= |x| && FindOpen(x[i..]).None? && st.scan == HeldOf(x[i..])
    && (|| (i == 0 && st.curOut.Some?)
        || (Spent(x[..i]) && (st.curOut.Some? <==> |x| - i >= MAX_OPEN)))
  }

  predicate EndsWith(x: string, cap: string) {
    |cap| <= |x| && x[|x| - |cap|..] == cap
  }

  /** The text scanned since a block began, against what is held and whether a block is open for it. */
  ghost predicate HasRead(x: string, st: Rewriter) {
    match st.mode
    case Capture => EndsWith(x, st.cap)
    case Pass => exists i: nat :: PassingSince(x, i, st)
  }

  /** Amid a scan: no opening tag starts in what was said since place i, and what is to be scanned follows it. */
  ghost predicate ScanningFrom(x: string, i: nat, said: string, st: Rewriter) {
    && i <= |x| && x[i..] == said + st.scan
    && Untagged(said, st.scan) && (said != "" ==> |st.scan| >= MAX_OPEN - 1)
    && (|| (i == 0 && st.curOut.Some?)
        || (Spent(x[..i]) && (st.curOut.Some? <==> said != "")))
  }

  lemma {:induction false} PassHasRead(c: Config, x: string, i: nat, said: string, st: Rewriter)
    requires st.mode == Pass && st.cap == "" && ScanningFrom(x, i, said, st)
    ensures HasRead(x, PassScan(c, st).st)
    decreases 2 * |st.scan| + 1
  {
    match FindOpen(st.scan)
    case None =>
      HoldBackHasRead(c, x, i, said, st);
    case Some(found) =>
      var begun := Captured(st);
      CapturedAtTheFront(st.scan);
      EndOfEnd(x, i, said, st.scan, found.start);
      CaptureHasRead(c, x, begun.st);
  }

  lemma EndOfEnd(x: string, i: nat, said: string, scan: string, start: nat)
    requires i <= |x| && x[i..] == said + scan && start <= |scan|
    ensures EndsWith(x, scan[start..])
  {
    var k := i + |said| + start;
    assert |x| == i + |said| + |scan|;
    assert x[k..] == x[i..][|said| + start..] == (said + scan)[|said| + start..] == scan[start..];
  }

  lemma HoldBackHasRead(c: Config, x: string, i: nat, said: string, st: Rewriter)
    requires st.mode == Pass && st.cap == "" && ScanningFrom(x, i, said, st) && FindOpen(st.scan).None?
    ensures HasRead(x, PassScan(c, st).st)
  {
    FindOpenPast(said, st.scan);
    HeldOfRest(said, st.scan);
    assert PassingSince(x, i, PassScan(c, st).st);
  }

  lemma HeldOfRest(said: string, scan: string)
    requires said != "" ==> |scan| >= MAX_OPEN - 1
    ensures HeldOf(said + scan) == if |scan| <= MAX_OPEN - 1 then scan else scan[|scan| - (MAX_OPEN - 1)..]
  {
    if said == "" {
      assert said + scan == scan;
    }
    if |scan| == MAX_OPEN - 1 {
      assert (said + scan)[|said|..] == scan;
    }
  }

  lemma {:induction false} CaptureHasRead(c: Config, x: string, st: Rewriter)
    requires st.mode == Capture && st.scan == "" && st.curOut.None? && EndsWith(x, st.cap)
    requires FindOpen(st.cap).Some? && FindOpen(st.cap).value.start == 0
    ensures HasRead(x, CaptureScan(c, st).st)
    decreases 2 * |st.cap|
  {
    var y, s := x[..|x| - |st.cap|], FindOpen(st.cap).value;
    assert x == y + st.cap;
    match FindWrapper(st.cap, 0)
    case None =>
      if ByteLen(st.cap) > CAP {
        EndsSpent(y, st.cap, s.end);
        AllSpent(x, CaptureScan(c, st).st);
      }
    case Some(w) =>
      FirstTagUnique(st.cap, 0, s.start, s.end, w.start, w.inner, false);
      RegionSpent(y, st.cap, w);
      var resolved := Resolve(c, st, st.cap[w.start..w.end]);
      ResolveKeepsScan(c, st, st.cap[w.start..w.end]);
      var passing := resolved.st.(cap := "", mode := Pass, curOut := None);
      var i, rest := |y| + w.end, st.cap[w.end..];
      SpentUpTo(x, y, st.cap, w.end);
      if rest == "" {
        AllSpent(x, passing);
      } else {
        PassHasRead(c, x, i, "", passing.(scan := rest));
      }
  }

  lemma SpentUpTo(x: string, y: string, cap: string, n: nat)
    requires x == y + cap && n <= |cap| && Spent(y + cap[..n])
    ensures Spent(x[..|y| + n]) && x[|y| + n..] == "" + cap[n..]
    ensures n == |cap| ==> Spent(x)
    ensures Untagged("", cap[n..])
  {
    assert x[..|y| + n] == y + cap[..n];
    assert n == |cap| ==> cap[..n] == cap;
  }

  lemma RegionSpent(y: string, cap: string, w: Wrapper)
    requires FindWrapper(cap, 0) == Some(w) && w.start == 0
    ensures Spent(y + cap[..w.end])
  {
    var region, rest := cap[..w.end], cap[w.end..];
    assert region + rest == cap;
    FindWrapperInside(region, rest);
    EndsSpent(y, region, w.inner);
  }

  lemma AllSpent(x: string, st: Rewriter)
    requires Spent(x) && st.mode == Pass && st.scan == "" && st.curOut.None?
    ensures HasRead(x, st)
  {
    assert x[..|x|] == x && x[|x|..] == "";
    NothingFound();
    assert PassingSince(x, |x|, st);
  }

  lemma ResolveKeepsScan(c: Config, st: Rewriter, region: string)
    ensures Resolve(c, st, region).st.scan == st.scan
  {
    MakeCallsKeeps(c, st, c.parse(region), |c.parse(region)|);
  }

  /** One delta. */
  lemma TextHasRead(c: Config, x: string, st: Rewriter, text: string)
    requires Settled(st) && HasRead(x, st)
    ensures HasRead(x + text, OnText(c, st, text).st)
  {
    match st.mode
    case Pass =>
      var i: nat :| PassingSince(x, i, st);
      StillScanning(x, i, st, text);
      PassHasRead(c, x + text, i, x[i..|x| - |st.scan|], st.(scan := st.scan + text));
    case Capture =>
      FindOpenStable(st.cap, text);
      assert (x + text)[|x| - |st.cap|..] == st.cap + text;
      CaptureHasRead(c, x + text, st.(cap := st.cap + text));
  }

  lemma StillScanning(x: string, i: nat, st: Rewriter, text: string)
    requires PassingSince(x, i, st)
    ensures |st.scan| <= |x| - i
    ensures ScanningFrom(x + text, i, x[i..|x| - |st.scan|], st.(scan := st.scan + text))
  {
    var b, n := x[i..], |x| - i - |st.scan|;
    var said := x[i..|x| - |st.scan|];
    assert b[..n] == said && b[n..] == st.scan;
    assert (x + text)[i..] == said + (st.scan + text) && (x + text)[..i] == x[..i];
    if said != "" {
      HoldBackNeverSplitsATag(b, n, text);
    }
  }

  // ---------- At the end of the block ----------

  /** What stays held when the block ends. */
  function Left(st: Rewriter): string {
    if st.mode == Pass && st.curOut.None? then st.scan else ""
  }

  /** Whatever the cut, what is left can be. */
  lemma LeftCanBe(x: string, st: Rewriter)
    requires Settled(st) && HasRead(x, st)
    ensures CanLeave(x, Left(st)) && |Left(st)| < MAX_OPEN && FindOpen(Left(st)).None?
  {
    NothingFound();
    match st.mode
    case Capture =>
      var y := x[..|x| - |st.cap|];
      assert x == y + st.cap;
      TailHasOpen(y, st.cap, FindOpen(st.cap).value.end);
    case Pass =>
      var i: nat :| PassingSince(x, i, st);
      if st.curOut.None? {
        assert st.scan == x[i..] && |x| - |st.scan| == i;
        assert SpentAt(x, i);
      } else if i == 0 {
        assert x[0..] == x;
      } else {
        assert SpentAt(x, i);
      }
  }

  // ---------- Cuts that leave it ----------

  lemma {:induction false} SpentAtOnce(c: Config, st: Rewriter)
    requires st.mode == Pass && st.cap == "" && Spent(st.scan)
    ensures
      var s := PassScan(c, st).st;
      s.mode == Pass && s.scan == "" && s.cap == "" && s.curOut.None?
    decreases |st.scan|
  {
    SpentFromItsTag(st.scan);
    var begun := Captured(st);
    match FindWrapper(begun.st.cap, 0)
    case None =>
    case Some(w) =>
      var resolved := Resolve(c, begun.st, begun.st.cap[w.start..w.end]);
      ResolveKeepsScan(c, begun.st, begun.st.cap[w.start..w.end]);
      if begun.st.cap[w.end..] != "" {
        SpentAtOnce(c, resolved.st.(cap := "", mode := Pass, curOut := None, scan := begun.st.cap[w.end..]));
      }
  }

  lemma SpentFromItsTag(text: string)
    requires Spent(text)
    ensures FindOpen(text).Some?
    ensures SpentCapture(text[FindOpen(text).value.start..])
  {
    SpentHasOpen(text);
    SplitFromItsTag(text);
  }

  lemma SplitFromItsTag(text: string)
    requires FindOpen(text).Some?
    ensures
      var u := text[FindOpen(text).value.start..];
      && (Split(text).Some? <==> Split(u).Some?)
      && (Split(u).Some? ==> Split(u).value.rest == Split(text).value.rest)
  {
    var start := FindOpen(text).value.start;
    var t, u := text[..start], text[start..];
    NoTagBeforeTheFirst(text, "");
    Sequences.ConcatEmpty(u);
    Sequences.Cut(text, start);
    SplitPast(t, u);
  }

  ghost predicate SpentCapture(cap: string) {
    match FindWrapper(cap, 0)
    case None => ByteLen(cap) > CAP
    case Some(w) => cap[w.end..] == "" || Spent(cap[w.end..])
  }

  /** A text with an opening tag in its tail, fed at once, ends captured or spent. */
  lemma {:induction false} OpenAtOnce(c: Config, st: Rewriter)
    requires st.mode == Pass && st.cap == "" && FindOpen(Tail(st.scan)).Some?
    ensures Left(PassScan(c, st).st) == ""
    decreases |st.scan|
  {
    OpenInTail(st.scan);
    SplitFromItsTag(st.scan);
    var begun := Captured(st);
    match FindWrapper(begun.st.cap, 0)
    case None =>
    case Some(w) =>
      var resolved := Resolve(c, begun.st, begun.st.cap[w.start..w.end]);
      ResolveKeepsScan(c, begun.st, begun.st.cap[w.start..w.end]);
      if begun.st.cap[w.end..] != "" {
        OpenAtOnce(c, resolved.st.(cap := "", mode := Pass, curOut := None, scan := begun.st.cap[w.end..]));
      }
  }

  lemma OpenInTail(text: string)
    requires FindOpen(Tail(text)).Some?
    ensures FindOpen(text).Some?
  {
    if Split(text).Some? {
      var w := FindWrapper(text, 0).value;
      assert TagAt(text, w.start, w.inner, false);
    }
  }

  /** Spent text takes more than what is held from before, in which no opening tag is complete. */
  lemma SpentIsLonger(held: string, text: string, i: nat)
    requires FindOpen(held).None? && i <= |held + text| && Spent((held + text)[..i])
    ensures |held| < i
  {
    if i <= |held| {
      var a, b := held[..i], held[i..];
      assert (held + text)[..i] == a && held == a + b;
      SpentHasOpen(a);
      FindOpenStable(a, b);
    }
  }
}
