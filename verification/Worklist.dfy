/** Visiting a tree by worklist against reading it recursively. */
module Worklist {
  import opened Sequences

  datatype Totals = Totals(nodes: nat, properties: nat, chars: nat, enums: nat)

  const Zero := Totals(0, 0, 0, 0)

  function Plus(a: Totals, b: Totals): Totals {
    Totals(a.nodes + b.nodes, a.properties + b.properties, a.chars + b.chars, a.enums + b.enums)
  }

  /** What is asked of each node by itself, what it adds to the totals, and what is inside it. */
  datatype Rules<!T> = Rules(legal: T -> bool, cost: T -> Totals, children: T -> seq<T>)

  datatype Limits = Limits(depth: nat, totals: Totals)

  predicate Within(limits: Limits, t: Totals) {
    && t.nodes <= limits.totals.nodes && t.properties <= limits.totals.properties
    && t.chars <= limits.totals.chars && t.enums <= limits.totals.enums
  }

  // ---------- Recursively ----------

  /** Legal down to the leaves, at most `levels` deep. */
  predicate Legal<T>(r: Rules<T>, v: T, levels: nat)
    decreases levels
  {
    && levels > 0 && r.legal(v)
    && forall i | 0 <= i < |r.children(v)| :: Legal(r, r.children(v)[i], levels - 1)
  }

  function TotalCost<T>(r: Rules<T>, v: T, levels: nat): Totals
    decreases levels, 0
  {
    if levels == 0 then Zero else Plus(r.cost(v), SumCosts(r, r.children(v), levels - 1))
  }

  function SumCosts<T>(r: Rules<T>, vs: seq<T>, levels: nat): Totals
    decreases levels, 1 + |vs|
  {
    if vs == [] then Zero
    else Plus(SumCosts(r, vs[..|vs| - 1], levels), TotalCost(r, vs[|vs| - 1], levels))
  }

  /** A tree of legal nodes no deeper than the limit, its totals within the limits. */
  predicate Acceptable<T>(r: Rules<T>, limits: Limits, v: T) {
    Legal(r, v, limits.depth) && Within(limits, TotalCost(r, v, limits.depth))
  }

  // ---------- By worklist ----------

  type Work<T> = seq<(T, nat)>

  /** The levels left to a node at some depth, the root being at depth one. */
  function Levels(limits: Limits, depth: nat): nat {
    if depth <= limits.depth then limits.depth + 1 - depth else 0
  }

  function Sum<T>(f: T -> Totals, s: seq<T>): Totals {
    if s == [] then Zero else Plus(Sum(f, s[..|s| - 1]), f(s[|s| - 1]))
  }

  lemma {:induction false} SumConcat<T>(f: T -> Totals, a: seq<T>, b: seq<T>)
    ensures Sum(f, a + b) == Plus(Sum(f, a), Sum(f, b))
  {
    if b == [] {
      ConcatEmpty(a);
    } else {
      SumConcat(f, a, b[..|b| - 1]);
      ConcatLast(a, b);
    }
  }

  lemma SumOne<T>(f: T -> Totals, x: T)
    ensures Sum(f, [x]) == f(x)
  {
    assert [x][..0] == [];
  }

  function EntryCost<T>(r: Rules<T>, limits: Limits): ((T, nat)) -> Totals {
    (e: (T, nat)) => TotalCost(r, e.0, Levels(limits, e.1))
  }

  function WorkCost<T>(r: Rules<T>, limits: Limits, work: Work<T>): Totals {
    Sum(EntryCost(r, limits), work)
  }

  ghost predicate AllLegal<T>(r: Rules<T>, limits: Limits, work: Work<T>) {
    forall i | 0 <= i < |work| :: Legal(r, work[i].0, Levels(limits, work[i].1))
  }

  /** Whether what is on the worklist is acceptable on top of what was counted. */
  ghost predicate Remaining<T>(r: Rules<T>, limits: Limits, work: Work<T>, totals: Totals) {
    AllLegal(r, limits, work) && Within(limits, Plus(totals, WorkCost(r, limits, work)))
  }

  function At<T>(vs: seq<T>, depth: nat): Work<T> {
    seq(|vs|, i requires 0 <= i < |vs| => (vs[i], depth))
  }

  lemma WorkCostConcat<T>(r: Rules<T>, limits: Limits, a: Work<T>, b: Work<T>)
    ensures WorkCost(r, limits, a + b) == Plus(WorkCost(r, limits, a), WorkCost(r, limits, b))
  {
    SumConcat(EntryCost(r, limits), a, b);
  }

  lemma {:induction false} WorkCostAt<T>(r: Rules<T>, limits: Limits, vs: seq<T>, depth: nat)
    ensures WorkCost(r, limits, At(vs, depth)) == SumCosts(r, vs, Levels(limits, depth))
  {
    if vs != [] {
      WorkCostAt(r, limits, vs[..|vs| - 1], depth);
      assert At(vs, depth)[..|vs| - 1] == At(vs[..|vs| - 1], depth);
    }
  }

  lemma WorkCostOne<T>(r: Rules<T>, limits: Limits, v: T, depth: nat)
    ensures WorkCost(r, limits, [(v, depth)]) == TotalCost(r, v, Levels(limits, depth))
  {
    SumOne(EntryCost(r, limits), (v, depth));
  }

  /** The worklist after visiting entry i: its children take its place. */
  function Visited<T>(r: Rules<T>, work: Work<T>, i: nat): Work<T>
    requires i < |work|
  {
    work[..i] + work[i + 1..] + At(r.children(work[i].0), work[i].1 + 1)
  }

  /** Whichever entry is visited next, the verdict is the same. */
  lemma VisitAnyEntry<T>(r: Rules<T>, limits: Limits, work: Work<T>, totals: Totals, i: nat)
    requires i < |work|
    ensures
      Remaining(r, limits, work, totals) <==>
        && work[i].1 <= limits.depth && r.legal(work[i].0)
        && Remaining(r, limits, Visited(r, work, i), Plus(totals, r.cost(work[i].0)))
  {
    if work[i].1 <= limits.depth {
      VisitCost(r, limits, work, i);
      if AllLegal(r, limits, work) {
        VisitKeepsLegal(r, limits, work, i);
      }
      if r.legal(work[i].0) && AllLegal(r, limits, Visited(r, work, i)) {
        VisitFindsLegal(r, limits, work, i);
      }
    }
  }

  // ---------- In any order ----------

  datatype Verdict = Accepted | Refused | Unfinished

  /** Visits entries in the order given, each by its place on the worklist, until one is refused or none is left. */
  function Walk<T>(r: Rules<T>, limits: Limits, work: Work<T>, totals: Totals, order: seq<nat>): Verdict
    decreases |order|
  {
    if work == [] then Accepted
    else if order == [] || order[0] >= |work| then Unfinished
    else
      var (v, depth) := work[order[0]];
      if depth > limits.depth || !r.legal(v) || !Within(limits, Plus(totals, r.cost(v))) then Refused
      else Walk(r, limits, Visited(r, work, order[0]), Plus(totals, r.cost(v)), order[1..])
  }

  /** Every order that comes to a verdict comes to the one of the recursive reading. */
  lemma {:induction false} WalkDecides<T>(r: Rules<T>, limits: Limits, work: Work<T>, totals: Totals, order: seq<nat>)
    requires Within(limits, totals)
    ensures
      match Walk(r, limits, work, totals, order)
      case Accepted => Remaining(r, limits, work, totals)
      case Refused => !Remaining(r, limits, work, totals)
      case Unfinished => true
    decreases |order|
  {
    if work != [] && order != [] && order[0] < |work| {
      var i := order[0];
      var counted := Plus(totals, r.cost(work[i].0));
      VisitAnyEntry(r, limits, work, totals, i);
      if !Within(limits, counted) {
        if Remaining(r, limits, Visited(r, work, i), counted) {
          TotalsOnlyGrow(limits, counted, WorkCost(r, limits, Visited(r, work, i)));
        }
      } else if work[i].1 <= limits.depth && r.legal(work[i].0) {
        WalkDecides(r, limits, Visited(r, work, i), counted, order[1..]);
      }
    }
  }

  /** From the root, whatever the order: accepted exactly if acceptable. */
  lemma AnyOrderDecides<T>(r: Rules<T>, limits: Limits, v: T, order: seq<nat>)
    requires !Walk(r, limits, [(v, 1)], Zero, order).Unfinished?
    ensures Walk(r, limits, [(v, 1)], Zero, order).Accepted? <==> Acceptable(r, limits, v)
  {
    WalkDecides(r, limits, [(v, 1)], Zero, order);
    WorkCostOne(r, limits, v, 1);
    OneLegal(r, limits, [(v, 1)]);
    SameTotals(Zero, WorkCost(r, limits, [(v, 1)]), TotalCost(r, v, limits.depth));
  }

  lemma SameTotals(zero: Totals, a: Totals, b: Totals)
    requires zero == Zero && a == b
    ensures Plus(zero, a) == b
  {
  }

  lemma OneLegal<T>(r: Rules<T>, limits: Limits, work: Work<T>)
    requires |work| == 1
    ensures AllLegal(r, limits, work) <==> Legal(r, work[0].0, Levels(limits, work[0].1))
  {
  }

  lemma VisitCost<T>(r: Rules<T>, limits: Limits, work: Work<T>, i: nat)
    requires i < |work| && work[i].1 <= limits.depth
    ensures WorkCost(r, limits, work) == Plus(r.cost(work[i].0), WorkCost(r, limits, Visited(r, work, i)))
  {
    assert work == work[..i] + [(work[i].0, work[i].1)] + work[i + 1..];
    VisitCostBetween(r, limits, work[..i], work[i].0, work[i].1, work[i + 1..]);
  }

  lemma VisitCostBetween<T>(r: Rules<T>, limits: Limits, before: Work<T>, v: T, depth: nat, after: Work<T>)
    requires depth <= limits.depth
    ensures
      WorkCost(r, limits, before + [(v, depth)] + after)
      == Plus(r.cost(v), WorkCost(r, limits, before + after + At(r.children(v), depth + 1)))
  {
    TakeOut(r, limits, before, v, depth, after);
    CostOfOne(r, limits, v, depth);
    WorkCostConcat(r, limits, before + after, At(r.children(v), depth + 1));
  }

  lemma CostOfOne<T>(r: Rules<T>, limits: Limits, v: T, depth: nat)
    requires depth <= limits.depth
    ensures TotalCost(r, v, Levels(limits, depth)) == Plus(r.cost(v), WorkCost(r, limits, At(r.children(v), depth + 1)))
  {
    WorkCostAt(r, limits, r.children(v), depth + 1);
    assert Levels(limits, depth + 1) == Levels(limits, depth) - 1;
  }

  lemma TakeOut<T>(r: Rules<T>, limits: Limits, before: Work<T>, v: T, depth: nat, after: Work<T>)
    ensures
      WorkCost(r, limits, before + [(v, depth)] + after)
      == Plus(TotalCost(r, v, Levels(limits, depth)), WorkCost(r, limits, before + after))
  {
    WorkCostOne(r, limits, v, depth);
    WorkCostConcat(r, limits, before, [(v, depth)]);
    WorkCostConcat(r, limits, before + [(v, depth)], after);
    WorkCostConcat(r, limits, before, after);
  }

  lemma VisitKeepsLegal<T>(r: Rules<T>, limits: Limits, work: Work<T>, i: nat)
    requires i < |work| && work[i].1 <= limits.depth && AllLegal(r, limits, work)
    ensures r.legal(work[i].0) && AllLegal(r, limits, Visited(r, work, i))
  {
    var next, n := Visited(r, work, i), |work| - 1;
    assert Legal(r, work[i].0, Levels(limits, work[i].1));
    forall k | 0 <= k < |next| ensures Legal(r, next[k].0, Levels(limits, next[k].1)) {
      if k < i {
        assert next[k] == work[k];
      } else if k < n {
        assert next[k] == work[k + 1];
      } else {
        assert next[k] == (r.children(work[i].0)[k - n], work[i].1 + 1);
      }
    }
  }

  lemma VisitFindsLegal<T>(r: Rules<T>, limits: Limits, work: Work<T>, i: nat)
    requires i < |work| && work[i].1 <= limits.depth && r.legal(work[i].0)
    requires AllLegal(r, limits, Visited(r, work, i))
    ensures AllLegal(r, limits, work)
  {
    var next, n, v, depth := Visited(r, work, i), |work| - 1, work[i].0, work[i].1;
    forall k | 0 <= k < |r.children(v)| ensures Legal(r, r.children(v)[k], Levels(limits, depth) - 1) {
      assert next[n + k] == (r.children(v)[k], depth + 1);
    }
    forall k | 0 <= k < |work| ensures Legal(r, work[k].0, Levels(limits, work[k].1)) {
      if k < i {
        assert next[k] == work[k];
      } else if k > i {
        assert next[k - 1] == work[k];
      }
    }
  }

  /** Totals over the limit stay so. */
  lemma TotalsOnlyGrow(limits: Limits, a: Totals, b: Totals)
    requires Within(limits, Plus(a, b))
    ensures Within(limits, a)
  {
  }
}
