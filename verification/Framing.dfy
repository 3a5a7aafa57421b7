/** Server-sent event frames, which end at a blank line spelled LF LF or CR LF CR LF. */
module Framing {
  // The rules that find the end agree, and cutting a stream into chunks does not change its frames.

  import opened Wrappers
  import Sequences

  /** The line feed and carriage return of an alphabet: bytes for some readers, characters for others. */
  datatype Ends<T> = Ends(lf: T, cr: T)

  ghost predicate Distinct<T>(e: Ends<T>) {
    e.lf != e.cr
  }

  predicate LfAt<T(==)>(buf: seq<T>, e: Ends<T>, i: nat) {
    i + 2 <= |buf| && buf[i] == e.lf && buf[i + 1] == e.lf
  }

  predicate CrlfAt<T(==)>(buf: seq<T>, e: Ends<T>, i: nat) {
    i + 4 <= |buf| && buf[i] == e.cr && buf[i + 1] == e.lf && buf[i + 2] == e.cr && buf[i + 3] == e.lf
  }

  ghost predicate FirstLf<T>(buf: seq<T>, e: Ends<T>, i: nat) {
    LfAt(buf, e, i) && forall k: nat | k < i :: !LfAt(buf, e, k)
  }

  ghost predicate FirstCrlf<T>(buf: seq<T>, e: Ends<T>, i: nat) {
    CrlfAt(buf, e, i) && forall k: nat | k < i :: !CrlfAt(buf, e, k)
  }

  /** Where the first LF LF starts. */
  ghost function FindLf<T>(buf: seq<T>, e: Ends<T>): (r: Option<nat>)
    ensures r.Some? ==> FirstLf(buf, e, r.value)
    ensures r.None? ==> forall i: nat :: !LfAt(buf, e, i)
  {
    if exists i: nat :: LfAt(buf, e, i) then
      var i: nat :| LfAt(buf, e, i);
      Some(EarliestLf(buf, e, i))
    else None
  }

  ghost function EarliestLf<T>(buf: seq<T>, e: Ends<T>, i: nat): (r: nat)
    requires LfAt(buf, e, i)
    ensures r <= i && FirstLf(buf, e, r)
  {
    if exists k: nat :: k < i && LfAt(buf, e, k) then
      var k: nat :| k < i && LfAt(buf, e, k);
      EarliestLf(buf, e, k)
    else i
  }

  /** Where the first CR LF CR LF starts. */
  ghost function FindCrlf<T>(buf: seq<T>, e: Ends<T>): (r: Option<nat>)
    ensures r.Some? ==> FirstCrlf(buf, e, r.value)
    ensures r.None? ==> forall i: nat :: !CrlfAt(buf, e, i)
  {
    if exists i: nat :: CrlfAt(buf, e, i) then
      var i: nat :| CrlfAt(buf, e, i);
      Some(EarliestCrlf(buf, e, i))
    else None
  }

  ghost function EarliestCrlf<T>(buf: seq<T>, e: Ends<T>, i: nat): (r: nat)
    requires CrlfAt(buf, e, i)
    ensures r <= i && FirstCrlf(buf, e, r)
  {
    if exists k: nat :: k < i && CrlfAt(buf, e, k) then
      var k: nat :| k < i && CrlfAt(buf, e, k);
      EarliestCrlf(buf, e, k)
    else i
  }

  /** A frame's length and the length of the blank line after it. */
  datatype Boundary = Boundary(at: nat, sep: nat)

  /** The rule that compares where the blank lines start. */
  ghost function NextBoundary<T>(buf: seq<T>, e: Ends<T>): Option<Boundary> {
    match (FindLf(buf, e), FindCrlf(buf, e))
    case (None, None) => None
    case (Some(i), None) => Some(Boundary(i, 2))
    case (None, Some(i)) => Some(Boundary(i, 4))
    case (Some(lf), Some(crlf)) => if lf <= crlf then Some(Boundary(lf, 2)) else Some(Boundary(crlf, 4))
  }

  /** The rule that compares where the blank lines end. */
  ghost function FrameEnd<T>(buf: seq<T>, e: Ends<T>): Option<nat> {
    match (FindLf(buf, e), FindCrlf(buf, e))
    case (None, None) => None
    case (Some(i), None) => Some(i + 2)
    case (None, Some(i)) => Some(i + 4)
    case (Some(lf), Some(crlf)) => if lf + 2 <= crlf + 4 then Some(lf + 2) else Some(crlf + 4)
  }

  /** The two rules find the same end. */
  lemma RulesAgree<T>(buf: seq<T>, e: Ends<T>)
    requires Distinct(e)
    ensures NextBoundary(buf, e).Some? <==> FrameEnd(buf, e).Some?
    ensures NextBoundary(buf, e).Some? ==>
      var b := NextBoundary(buf, e).value; FrameEnd(buf, e) == Some(b.at + b.sep)
  {
  }

  lemma FrameEndBounds<T>(buf: seq<T>, e: Ends<T>)
    ensures FrameEnd(buf, e).Some? ==> 2 <= FrameEnd(buf, e).value <= |buf|
  {
  }

  method LocateLf<T(==)>(buf: seq<T>, e: Ends<T>) returns (r: Option<nat>)
    ensures r == FindLf(buf, e)
  {
    for i := 0 to |buf|
      invariant forall k: nat | k < i :: !LfAt(buf, e, k)
    {
      if LfAt(buf, e, i) {
        return Some(i);
      }
    }
    return None;
  }

  method LocateCrlf<T(==)>(buf: seq<T>, e: Ends<T>) returns (r: Option<nat>)
    ensures r == FindCrlf(buf, e)
  {
    for i := 0 to |buf|
      invariant forall k: nat | k < i :: !CrlfAt(buf, e, k)
    {
      if CrlfAt(buf, e, i) {
        return Some(i);
      }
    }
    return None;
  }

  method LocateBoundary<T(==)>(buf: seq<T>, e: Ends<T>) returns (r: Option<Boundary>)
    requires Distinct(e)
    ensures r == NextBoundary(buf, e)
    ensures r.Some? ==>
      0 < r.value.sep && r.value.at + r.value.sep <= |buf| && FrameEnd(buf, e) == Some(r.value.at + r.value.sep)
    ensures r.None? ==> FrameEnd(buf, e).None?
  {
    var lf := LocateLf(buf, e);
    var crlf := LocateCrlf(buf, e);
    RulesAgree(buf, e);
    r := match (lf, crlf)
      case (None, None) => None
      case (Some(i), None) => Some(Boundary(i, 2))
      case (None, Some(i)) => Some(Boundary(i, 4))
      case (Some(i), Some(j)) => if i <= j then Some(Boundary(i, 2)) else Some(Boundary(j, 4));
  }

  method LocateEnd<T(==)>(buf: seq<T>, e: Ends<T>) returns (r: Option<nat>)
    ensures r == FrameEnd(buf, e)
    ensures r.Some? ==> 2 <= r.value <= |buf|
  {
    var lf := LocateLf(buf, e);
    var crlf := LocateCrlf(buf, e);
    r := match (lf, crlf)
      case (None, None) => None
      case (Some(i), None) => Some(i + 2)
      case (None, Some(i)) => Some(i + 4)
      case (Some(i), Some(j)) => if i + 2 <= j + 4 then Some(i + 2) else Some(j + 4);
  }

  // ---------- Chunks ----------

  lemma FindLfStable<T>(a: seq<T>, b: seq<T>, e: Ends<T>)
    ensures FindLf(a, e).Some? ==> FindLf(a + b, e) == FindLf(a, e)
    ensures FindLf(a, e).None? && FindLf(a + b, e).Some? ==> FindLf(a + b, e).value + 2 > |a|
  {
    forall i: nat | i + 2 <= |a| ensures LfAt(a + b, e, i) == LfAt(a, e, i) {
    }
  }

  lemma FindCrlfStable<T>(a: seq<T>, b: seq<T>, e: Ends<T>)
    ensures FindCrlf(a, e).Some? ==> FindCrlf(a + b, e) == FindCrlf(a, e)
    ensures FindCrlf(a, e).None? && FindCrlf(a + b, e).Some? ==> FindCrlf(a + b, e).value + 4 > |a|
  {
    forall i: nat | i + 4 <= |a| ensures CrlfAt(a + b, e, i) == CrlfAt(a, e, i) {
    }
  }

  /** Bytes that arrive later do not move a frame's end. */
  lemma FrameEndStable<T>(a: seq<T>, b: seq<T>, e: Ends<T>)
    requires FrameEnd(a, e).Some?
    ensures FrameEnd(a + b, e) == FrameEnd(a, e)
  {
    FindLfStable(a, b, e);
    FindCrlfStable(a, b, e);
  }

  /** The complete frames of a buffer, blank lines included. */
  ghost function Frames<T>(buf: seq<T>, e: Ends<T>): seq<seq<T>>
    decreases |buf|
  {
    FrameEndBounds(buf, e);
    match FrameEnd(buf, e)
    case None => []
    case Some(end) => [buf[..end]] + Frames(buf[end..], e)
  }

  /** What follows the last complete frame. */
  ghost function Rest<T>(buf: seq<T>, e: Ends<T>): seq<T>
    decreases |buf|
  {
    FrameEndBounds(buf, e);
    match FrameEnd(buf, e)
    case None => buf
    case Some(end) => Rest(buf[end..], e)
  }

  function Flatten<T>(frames: seq<seq<T>>): seq<T> {
    if frames == [] then [] else frames[0] + Flatten(frames[1..])
  }

  /** Frames and rest are the buffer, cut. */
  lemma {:induction false} NothingDropped<T>(buf: seq<T>, e: Ends<T>)
    ensures Flatten(Frames(buf, e)) + Rest(buf, e) == buf
    ensures FrameEnd(Rest(buf, e), e).None?
    decreases |buf|
  {
    FrameEndBounds(buf, e);
    if FrameEnd(buf, e).Some? {
      var end := FrameEnd(buf, e).value;
      NothingDropped(buf[end..], e);
      Sequences.Cut(buf, end);
      FlattenCons(buf[..end], Frames(buf[end..], e), Rest(buf[end..], e));
    }
  }

  lemma FlattenCons<T>(first: seq<T>, more: seq<seq<T>>, rest: seq<T>)
    ensures Flatten([first] + more) + rest == first + (Flatten(more) + rest)
  {
    assert ([first] + more)[1..] == more;
  }

  /** Feeding in two chunks finds the frames, and leaves the rest, of feeding at once. */
  lemma {:induction false} ChunksDoNotMatter<T>(a: seq<T>, b: seq<T>, e: Ends<T>)
    ensures Frames(a + b, e) == Frames(a, e) + Frames(Rest(a, e) + b, e)
    ensures Rest(a + b, e) == Rest(Rest(a, e) + b, e)
    decreases |a|
  {
    FrameEndBounds(a, e);
    if FrameEnd(a, e).Some? {
      var end := FrameEnd(a, e).value;
      FrameEndStable(a, b, e);
      assert (a + b)[..end] == a[..end] && (a + b)[end..] == a[end..] + b;
      ChunksDoNotMatter(a[end..], b, e);
      OneMore(a[..end], Frames(a[end..], e), Frames(Rest(a[end..], e) + b, e));
    } else {
      assert [] + Frames(a + b, e) == Frames(a + b, e);
    }
  }

  lemma OneMore<T>(x: T, s: seq<T>, t: seq<T>)
    ensures [x] + (s + t) == [x] + s + t
  {
  }
}
