/** What is found in a text stays found, at the same place, when the text grows at either end. */
module DsmlLocality {
  import opened Wrappers
  import opened DsmlText

  // ---------- Growing at the end ----------

  lemma TagAtInside(t: string, u: string, start: nat, end: nat, closing: bool)
    requires end <= |t|
    ensures TagAt(t + u, start, end, closing) == TagAt(t, start, end, closing)
  {
    if start <= end {
      assert (t + u)[start..end] == t[start..end];
    }
  }

  lemma FirstTagStable(t: string, u: string, from: nat, start: nat, end: nat, closing: bool)
    requires FirstTag(t, from, start, end, closing)
    ensures FirstTag(t + u, from, start, end, closing)
  {
    TagShape(t, start, end, closing);
    TagAtInside(t, u, start, end, closing);
    forall i: nat, e: nat | from <= i < start ensures !TagAt(t + u, i, e, closing) {
      if TagAt(t + u, i, e, closing) {
        TagShape(t + u, i, e, closing);
        assert (t + u)[end - 1] == t[end - 1];
        TagAtInside(t, u, i, e, closing);
      }
    }
  }

  lemma FirstTagInside(t: string, u: string, from: nat, start: nat, end: nat, closing: bool)
    requires FirstTag(t + u, from, start, end, closing) && end <= |t|
    ensures FirstTag(t, from, start, end, closing)
  {
    TagAtInside(t, u, start, end, closing);
    forall i: nat, e: nat | from <= i < start ensures !TagAt(t, i, e, closing) {
      if TagAt(t, i, e, closing) {
        TagAtInside(t, u, i, e, closing);
      }
    }
  }

  lemma FindOpenStable(t: string, u: string)
    requires FindOpen(t).Some?
    ensures FindOpen(t + u) == FindOpen(t)
  {
    var s := FindOpen(t).value;
    FirstTagStable(t, u, 0, s.start, s.end, false);
    var s' := FindOpen(t + u).value;
    FirstTagUnique(t + u, 0, s.start, s.end, s'.start, s'.end, false);
  }

  lemma FindWrapperStable(t: string, u: string)
    requires FindWrapper(t, 0).Some?
    ensures FindWrapper(t + u, 0) == FindWrapper(t, 0)
  {
    var w := FindWrapper(t, 0).value;
    FirstTagStable(t, u, 0, w.start, w.inner, false);
    FirstTagStable(t, u, w.inner, w.outer, w.end, true);
    FindWrapperIs(t + u, 0, w);
  }

  lemma FindWrapperInside(t: string, u: string)
    requires FindWrapper(t + u, 0).Some? && FindWrapper(t + u, 0).value.end <= |t|
    ensures FindWrapper(t, 0) == FindWrapper(t + u, 0)
  {
    var w := FindWrapper(t + u, 0).value;
    FirstTagInside(t, u, 0, w.start, w.inner, false);
    FirstTagInside(t, u, w.inner, w.outer, w.end, true);
    FindWrapperIs(t, 0, w);
  }

  // ---------- Growing at the front ----------

  lemma TagAtShift(t: string, u: string, start: nat, end: nat, closing: bool)
    ensures TagAt(t + u, |t| + start, |t| + end, closing) == TagAt(u, start, end, closing)
  {
    if start <= end <= |u| {
      assert (t + u)[|t| + start..|t| + end] == u[start..end];
    }
  }

  lemma FirstTagShift(t: string, u: string, from: nat, start: nat, end: nat, closing: bool)
    ensures FirstTag(t + u, |t| + from, |t| + start, |t| + end, closing) == FirstTag(u, from, start, end, closing)
  {
    TagAtShift(t, u, start, end, closing);
    forall i: nat, e: nat | from <= i < start && TagAt(u, i, e, closing)
      ensures TagAt(t + u, |t| + i, |t| + e, closing)
    {
      TagAtShift(t, u, i, e, closing);
    }
    forall i: nat, e: nat | |t| + from <= i < |t| + start && TagAt(t + u, i, e, closing)
      ensures TagAt(u, i - |t|, e - |t|, closing)
    {
      TagAtShift(t, u, i - |t|, e - |t|, closing);
    }
  }

  /** A text `t` in which, followed by `u`, no opening tag starts. */
  ghost predicate Untagged(t: string, u: string) {
    forall i: nat, e: nat | i < |t| :: !TagAt(t + u, i, e, false)
  }

  lemma FirstOpenPast(t: string, u: string, start: nat, end: nat)
    requires Untagged(t, u)
    ensures FirstTag(t + u, 0, |t| + start, |t| + end, false) == FirstTag(u, 0, start, end, false)
  {
    FirstTagShift(t, u, 0, start, end, false);
  }

  function Move(w: Wrapper, distance: nat): Wrapper {
    Wrapper(distance + w.start, distance + w.inner, distance + w.outer, distance + w.end)
  }

  function Moved(w: Option<Wrapper>, distance: nat): Option<Wrapper> {
    match w case None => None case Some(w) => Some(Move(w, distance))
  }

  lemma FindOpenPast(t: string, u: string)
    requires Untagged(t, u)
    ensures match FindOpen(u)
            case None => FindOpen(t + u).None?
            case Some(s) => FindOpen(t + u) == Some(Span(|t| + s.start, |t| + s.end))
  {
    if FindOpen(t + u).Some? {
      var s := FindOpen(t + u).value;
      FirstOpenPast(t, u, s.start - |t|, s.end - |t|);
    }
    if FindOpen(u).Some? {
      var s := FindOpen(u).value;
      FirstOpenPast(t, u, s.start, s.end);
      var s' := FindOpen(t + u).value;
      FirstTagUnique(t + u, 0, |t| + s.start, |t| + s.end, s'.start, s'.end, false);
    }
  }

  lemma FindWrapperPast(t: string, u: string)
    requires Untagged(t, u)
    ensures FindWrapper(t + u, 0) == Moved(FindWrapper(u, 0), |t|)
  {
    forall w ensures FirstWrapper(t + u, 0, Move(w, |t|)) == FirstWrapper(u, 0, w) {
      FirstOpenPast(t, u, w.start, w.inner);
      FirstTagShift(t, u, w.inner, w.outer, w.end, true);
    }
    forall w | FirstWrapper(t + u, 0, w) ensures |t| <= w.start {
    }
    FindMoved(t + u, 0, u, |t|);
  }

  lemma FindWrapperShift(t: string, u: string)
    ensures FindWrapper(t + u, |t|) == Moved(FindWrapper(u, 0), |t|)
  {
    forall w ensures FirstWrapper(t + u, |t|, Move(w, |t|)) == FirstWrapper(u, 0, w) {
      FirstTagShift(t, u, 0, w.start, w.inner, false);
      FirstTagShift(t, u, w.inner, w.outer, w.end, true);
    }
    FindMoved(t + u, |t|, u, |t|);
  }

  /** Finding depends only on where first wrappers are. */
  lemma FindMoved(far: string, from: nat, near: string, distance: nat)
    requires forall w :: FirstWrapper(far, from, Move(w, distance)) == FirstWrapper(near, 0, w)
    requires forall w | FirstWrapper(far, from, w) :: distance <= w.start
    ensures FindWrapper(far, from) == Moved(FindWrapper(near, 0), distance)
  {
    if FindWrapper(far, from).Some? {
      var w := FindWrapper(far, from).value;
      TagShape(far, w.start, w.inner, false);
      var w' := Wrapper(w.start - distance, w.inner - distance, w.outer - distance, w.end - distance);
      assert Move(w', distance) == w;
      FindWrapperIs(near, 0, w');
    }
    if FindWrapper(near, 0).Some? {
      var w := FindWrapper(near, 0).value;
      FindWrapperIs(far, from, Move(w, distance));
    }
  }

  // ---------- What may be let go ----------

  /**
    When no opening tag is complete yet, none can start before the last MAX_OPEN - 1 characters, whatever
    follows.
   */
  lemma HoldBackNeverSplitsATag(t: string, split: nat, u: string)
    requires FindOpen(t).None? && split + MAX_OPEN - 1 <= |t|
    ensures Untagged(t[..split], t[split..] + u)
  {
    assert t[..split] + (t[split..] + u) == t + u;
    forall i: nat, e: nat | i < split ensures !TagAt(t + u, i, e, false) {
      if TagAt(t + u, i, e, false) {
        TagShape(t + u, i, e, false);
        TagAtInside(t, u, i, e, false);
      }
    }
  }

  lemma NoTagBeforeTheFirst(t: string, u: string)
    requires FindOpen(t).Some?
    ensures var start := FindOpen(t).value.start; Untagged(t[..start], t[start..] + u)
  {
    var s := FindOpen(t).value;
    assert t[..s.start] + (t[s.start..] + u) == t + u;
    FirstTagStable(t, u, 0, s.start, s.end, false);
  }
}
