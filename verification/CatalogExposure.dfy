/** Exactly when an invalidated identity's old models can be served again. */
module CatalogExposure {
  import opened Wrappers
  import opened ModelCatalog
  import opened CatalogInvalidation
  import opened CatalogHistory

  // ---------- From a state on ----------

  /** Nothing older is ever served again, however processes go on from here. */
  ghost predicate NeverServesOlder(ttl: Ttl, actions: seq<Action>, id: Identity, t: nat)
    requires Run(ttl, actions).Some?
  {
    forall more: seq<Action> | Run(ttl, actions + more).Some? ::
      ServedSince(Run(ttl, actions + more).value.log, |Run(ttl, actions).value.log|, id, t)
  }

  lemma RunNext(ttl: Ttl, actions: seq<Action>, a: Action)
    requires Run(ttl, actions).Some?
    ensures
      var w := Run(ttl, actions).value;
      Run(ttl, actions + [a]) == if Enabled(w, a) then Some(Next(ttl, w, a)) else None
  {
    assert (actions + [a])[..|actions|] == actions;
  }

  lemma RunTwice(ttl: Ttl, actions: seq<Action>, a: Action, b: Action)
    requires Run(ttl, actions).Some? && Enabled(Run(ttl, actions).value, a)
    requires Enabled(Next(ttl, Run(ttl, actions).value, a), b)
    ensures Run(ttl, actions + [a, b]) == Some(Next(ttl, Next(ttl, Run(ttl, actions).value, a), b))
  {
    RunNext(ttl, actions, a);
    RunNext(ttl, actions + [a], b);
    assert actions + [a] + [b] == actions + [a, b];
  }

  /** Clean states stay so. */
  lemma {:induction false} CleanServesNewer(ttl: Ttl, actions: seq<Action>, more: seq<Action>, id: Identity, t: nat)
    requires Run(ttl, actions).Some? && t < Run(ttl, actions).value.clock && Clean(Run(ttl, actions).value, id, t)
    requires Run(ttl, actions + more).Some?
    ensures
      var w := Run(ttl, actions + more).value;
      t < w.clock && Clean(w, id, t) && ServedSince(w.log, |Run(ttl, actions).value.log|, id, t)
    decreases |more|
  {
    if more == [] {
      assert actions + more == actions;
    } else {
      var a, rest := more[|more| - 1], actions + more[..|more| - 1];
      assert (actions + more)[..|actions + more| - 1] == rest;
      CleanServesNewer(ttl, actions, more[..|more| - 1], id, t);
      RunsLoseNoUpdate(ttl, rest);
      RunsHonourInvalidation(ttl, rest);
      LogOnlyGrows(ttl, actions, more[..|more| - 1]);
      StepClean(ttl, Run(ttl, rest).value, a, id, t);
      ServedLongerSince(Run(ttl, rest).value, StepOf(ttl, Run(ttl, rest).value, a).entries, |Run(ttl, actions).value.log|, id, t);
    }
  }

  lemma ServedLongerSince(w: World, entries: seq<Entry>, from: nat, id: Identity, t: nat)
    requires ServedSince(w.log, from, id, t)
    requires forall e | e in entries && e.Served? && e.identity == id :: e.fetchBegan > t
    ensures ServedSince(w.log + At(w.clock, entries), from, id, t)
  {
    var longer := w.log + At(w.clock, entries);
    forall j | from <= j < |longer| && longer[j].entry.Served? && longer[j].entry.identity == id
      ensures longer[j].entry.fetchBegan > t
    {
      if j >= |w.log| {
        assert longer[j].entry == entries[j - |w.log|];
      }
    }
  }

  // ---------- Serving what is left ----------

  /** A number above all of a finite set. */
  lemma {:induction false} Beyond(used: set<nat>) returns (n: nat)
    ensures forall m | m in used :: m < n
    decreases used
  {
    if used == {} {
      n := 0;
    } else {
      var x :| x in used;
      var m := Beyond(used - {x});
      n := if x < m then m else x + 1;
      forall y | y in used ensures y < n {
        assert y == x || y in used - {x};
      }
    }
  }

  /** A step that serves older models of an identity. */
  ghost predicate ServesOlder(ttl: Ttl, w: World, a: Action, id: Identity, t: nat) {
    Enabled(w, a) && exists e | e in StepOf(ttl, w, a).entries :: e.Served? && e.identity == id && e.fetchBegan <= t
  }

  lemma ServedInLog(ttl: Ttl, w: World, a: Action, from: nat, id: Identity, t: nat)
    requires ServesOlder(ttl, w, a, id, t) && from <= |w.log|
    ensures !ServedSince(Next(ttl, w, a).log, from, id, t)
  {
    var o, log := StepOf(ttl, w, a), Next(ttl, w, a).log;
    var e :| e in o.entries && e.Served? && e.identity == id && e.fetchBegan <= t;
    var k :| 0 <= k < |o.entries| && o.entries[k] == e;
    assert log[|w.log| + k].entry == e;
  }

  /** A new process is served a cache that no marker bars. */
  lemma CacheIsServed(ttl: Ttl, w: World, id: Identity, t: nat, pid: nat)
    requires w.disk.cache.Some? && w.disk.cache.value.identity == id && w.disk.cache.value.began <= t
    requires w.disk.marker.Some? ==> !(w.disk.marker.value.identity == id && w.disk.marker.value.invalidated)
    requires ProcessOf(w, pid) == Started
    ensures ServesOlder(ttl, w, Begin(pid, id, w.disk.cache.value.fetchedAt, false), id, t)
  {
    var a := Begin(pid, id, w.disk.cache.value.fetchedAt, false);
    var o := StepOf(ttl, w, a);
    assert Usable(Started, w.disk, id, a.now) == w.disk.cache;
    assert o.entries[0] in o.entries;
  }

  lemma UnstartedProcess(w: World) returns (pid: nat)
    ensures pid !in w.processes && ProcessOf(w, pid) == Started
  {
    pid := Beyond(w.processes.Keys);
  }

  /** Another identity's invalidation that gets no further than its marker lifts the bar. */
  lemma BarIsLifted(ttl: Ttl, w: World, id: Identity, other: Identity, t: nat, pid: nat, pid': nat, nonce: nat)
    requires w.disk.cache.Some? && w.disk.cache.value.identity == id != other && w.disk.cache.value.began <= t
    requires ProcessOf(w, pid) == Started && ProcessOf(w, pid') == Started && pid != pid' && nonce !in w.used
    ensures
      var lift := Invalidate(pid, other, nonce, Write(true, false, false));
      Enabled(w, lift)
      && ServesOlder(ttl, Next(ttl, w, lift), Begin(pid', id, w.disk.cache.value.fetchedAt, false), id, t)
  {
    var w' := Next(ttl, w, Invalidate(pid, other, nonce, Write(true, false, false)));
    assert w'.disk == Disk(Some(Marker(other, nonce, true)), w.disk.cache) && ProcessOf(w', pid') == Started;
    CacheIsServed(ttl, w', id, t, pid');
  }

  /** A call that still has the marker's nonce commits what it asked for, or falls back to what it read. */
  lemma CallServes(ttl: Ttl, w: World, id: Identity, t: nat, pid: nat, nonce: nat) returns (a: Action)
    requires pid in w.processes && w.processes[pid].call.Some? && nonce !in w.used
    requires
      var c := w.processes[pid].call.value;
      && c.identity == id && c.nonce == NonceOf(w.disk)
      && (c.began <= t || (c.stale.Some? && c.stale.value.began <= t))
    ensures ServesOlder(ttl, w, a, id, t) && Whole(a)
  {
    var c, whole := w.processes[pid].call.value, Write(true, true, true);
    a := Finish(pid, if c.began <= t then Fetched([], None) else Unavailable, nonce, whole);
    var o := StepOf(ttl, w, a);
    assert o.entries[|o.entries| - 1] in o.entries;
  }

  function Other(id: Identity): Identity {
    id.(authGeneration := id.authGeneration + 1)
  }

  /** What is not clean can be served: by a call that is still able to, or from the disk. */
  lemma UncleanServesOlder(ttl: Ttl, actions: seq<Action>, id: Identity, t: nat) returns (more: seq<Action>)
    requires Run(ttl, actions).Some? && !Clean(Run(ttl, actions).value, id, t)
    ensures Run(ttl, actions + more).Some?
    ensures !ServedSince(Run(ttl, actions + more).value.log, |Run(ttl, actions).value.log|, id, t)
  {
    var w := Run(ttl, actions).value;
    var nonce := Beyond(w.used);
    if w.disk.cache.Some? && w.disk.cache.value.identity == id && w.disk.cache.value.began <= t {
      var pid := Beyond(w.processes.Keys);
      var lift := Invalidate(pid, Other(id), nonce, Write(true, false, false));
      var begin := Begin(pid + 1, id, w.disk.cache.value.fetchedAt, false);
      BarIsLifted(ttl, w, id, Other(id), t, pid, pid + 1, nonce);
      RunTwice(ttl, actions, lift, begin);
      ServedInLog(ttl, Next(ttl, w, lift), begin, |w.log|, id, t);
      more := [lift, begin];
    } else {
      var pid :| pid in w.processes && w.processes[pid].call.Some?
                 && w.processes[pid].call.value.identity == id && w.processes[pid].call.value.nonce == NonceOf(w.disk)
                 && (w.processes[pid].call.value.began <= t
                     || (w.processes[pid].call.value.stale.Some? && w.processes[pid].call.value.stale.value.began <= t));
      var a := CallServes(ttl, w, id, t, pid, nonce);
      RunNext(ttl, actions, a);
      ServedInLog(ttl, w, a, |w.log|, id, t);
      more := [a];
    }
  }

  /** From any reachable state: nothing older is served in any continuation exactly when the state is clean. */
  lemma NeverOlderIffClean(ttl: Ttl, actions: seq<Action>, id: Identity, t: nat)
    requires Run(ttl, actions).Some? && t < Run(ttl, actions).value.clock
    ensures NeverServesOlder(ttl, actions, id, t) <==> Clean(Run(ttl, actions).value, id, t)
  {
    if Clean(Run(ttl, actions).value, id, t) {
      forall more: seq<Action> | Run(ttl, actions + more).Some?
        ensures ServedSince(Run(ttl, actions + more).value.log, |Run(ttl, actions).value.log|, id, t)
      {
        CleanServesNewer(ttl, actions, more, id, t);
      }
    } else {
      var more := UncleanServesOlder(ttl, actions, id, t);
      assert Run(ttl, actions + more).Some?;
    }
  }

  // ---------- From an invalidation on ----------

  /** The identity a step invalidates: asked to, or because the upstream rejected its credentials. */
  function Invalidates(w: World, a: Action): Option<Identity>
    requires Enabled(w, a)
  {
    match a
    case Invalidate(_, identity, _, _) => Some(identity)
    case Finish(pid, answer, _, _) => if answer.Rejected? then Some(ProcessOf(w, pid).call.value.identity) else None
    case Begin(_, _, _, _) => None
  }

  /** Another process has a call for the identity that read the marker as it is. */
  ghost predicate Overlapped(w: World, a: Action, id: Identity) {
    exists pid | pid in w.processes && pid != a.pid ::
      && w.processes[pid].call.Some?
      && w.processes[pid].call.value.identity == id
      && w.processes[pid].call.value.nonce == NonceOf(w.disk)
  }

  predicate Cached(w: World, id: Identity) {
    w.disk.cache.Some? && w.disk.cache.value.identity == id
  }

  /**
    What an invalidation leaves behind: the cache was not removed and is the identity's, or not even the marker was
    written and a call of another process can still commit.
   */
  ghost predicate Survives(w: World, a: Action, id: Identity)
    requires Enabled(w, a) && !a.Begin?
  {
    !a.write.cache && (Cached(w, id) || (!a.write.marker && Overlapped(w, a, id)))
  }

  /** What is on disk was asked for by a call that began before. */
  ghost predicate CacheIsOld(w: World) {
    && (w.disk.cache.Some? ==> w.disk.cache.value.began < w.clock)
    && (forall pid | pid in w.processes && w.processes[pid].call.Some? ::
          var c := w.processes[pid].call.value;
          c.began < w.clock && (c.stale.Some? ==> c.stale.value.began < w.clock))
  }

  lemma StepCacheIsOld(ttl: Ttl, w: World, a: Action)
    requires Enabled(w, a) && CacheIsOld(w)
    ensures CacheIsOld(Next(ttl, w, a))
  {
    var o, w' := StepOf(ttl, w, a), Next(ttl, w, a);
    if a.Finish? {
      assert a.pid in w.processes && w.processes[a.pid].call.Some?;
    }
    forall pid | pid in w'.processes && w'.processes[pid].call.Some?
      ensures
        var c := w'.processes[pid].call.value;
        c.began < w'.clock && (c.stale.Some? ==> c.stale.value.began < w'.clock)
    {
      if pid != a.pid {
        assert pid in w.processes && w.processes[pid].call.Some?;
      } else {
        NewCall(ttl, w, a);
      }
    }
  }

  lemma {:induction false} RunsCacheOld(ttl: Ttl, actions: seq<Action>)
    requires Run(ttl, actions).Some?
    ensures CacheIsOld(Run(ttl, actions).value)
    decreases |actions|
  {
    if actions != [] {
      var before := actions[..|actions| - 1];
      RunsCacheOld(ttl, before);
      StepCacheIsOld(ttl, Run(ttl, before).value, actions[|actions| - 1]);
    }
  }

  lemma InvalidatedDisk(ttl: Ttl, w: World, a: Action, id: Identity)
    requires Enabled(w, a) && Invalidates(w, a) == Some(id)
    ensures
      var w' := Next(ttl, w, a);
      && w'.disk == Written(w.disk, Marker(id, a.nonce, true), None, a.write)
      && w'.processes[a.pid].call.None?
      && (forall pid | pid != a.pid :: pid in w'.processes <==> pid in w.processes)
      && (forall pid | pid != a.pid && pid in w.processes :: w'.processes[pid] == w.processes[pid])
  {
  }

  lemma CleanUnlessSurvives(ttl: Ttl, w: World, a: Action, id: Identity)
    requires Enabled(w, a) && Sound(w) && CacheIsOld(w) && Invalidates(w, a) == Some(id)
    ensures Clean(Next(ttl, w, a), id, w.clock) <==> !Survives(w, a, id)
  {
    InvalidatedDisk(ttl, w, a, id);
    var w' := Next(ttl, w, a);
    if Survives(w, a, id) && !Cached(w, id) {
      var pid :| pid in w.processes && pid != a.pid && w.processes[pid].call.Some?
                 && w.processes[pid].call.value.identity == id && w.processes[pid].call.value.nonce == NonceOf(w.disk);
      assert pid in w'.processes && w'.processes[pid].call.Some? && w'.disk == w.disk;
      assert w'.processes[pid].call.value.began <= w.clock;
    }
    if !Survives(w, a, id) {
      forall pid | pid in w'.processes && w'.processes[pid].call.Some? && w'.processes[pid].call.value.identity == id
        ensures w'.processes[pid].call.value.nonce != NonceOf(w'.disk)
      {
        assert pid != a.pid && pid in w.processes && w.processes[pid].call.Some?;
      }
    }
  }

  /**
    After any run that ends in an invalidation: some continuation serves models of the identity that were asked for
    before it, exactly when something survives it.
   */
  lemma ServedAgainIffSurvives(ttl: Ttl, actions: seq<Action>, a: Action, id: Identity)
    requires Run(ttl, actions).Some? && Enabled(Run(ttl, actions).value, a)
    requires Invalidates(Run(ttl, actions).value, a) == Some(id)
    ensures
      var w := Run(ttl, actions).value;
      && Run(ttl, actions + [a]).Some?
      && (!NeverServesOlder(ttl, actions + [a], id, w.clock) <==> Survives(w, a, id))
  {
    var w := Run(ttl, actions).value;
    RunNext(ttl, actions, a);
    RunsLoseNoUpdate(ttl, actions);
    RunsCacheOld(ttl, actions);
    NeverOlderIffClean(ttl, actions + [a], id, w.clock);
    CleanUnlessSurvives(ttl, w, a, id);
  }

  // ---------- As long as writes go through whole or not at all ----------

  ghost predicate HoldsOff(ttl: Ttl, actions: seq<Action>, id: Identity, t: nat)
    requires Run(ttl, actions).Some?
  {
    forall more: seq<Action> | Run(ttl, actions + more).Some? && (forall b | b in more :: Whole(b)) ::
      ServedSince(Run(ttl, actions + more).value.log, |Run(ttl, actions).value.log|, id, t)
  }

  predicate Bars(marker: Option<Marker>, id: Identity) {
    marker.Some? && marker.value.identity == id && marker.value.invalidated
  }

  /** Behind a marker that bars its identity, a call has nothing to fall back to. */
  ghost predicate BarredCalls(w: World) {
    forall pid | pid in w.processes && w.processes[pid].call.Some? ::
      var c := w.processes[pid].call.value;
      c.nonce == NonceOf(w.disk) && Bars(w.disk.marker, c.identity) ==> c.stale.None?
  }

  lemma StepBarredCalls(ttl: Ttl, w: World, a: Action)
    requires Enabled(w, a) && Sound(w) && BarredCalls(w)
    ensures BarredCalls(Next(ttl, w, a))
  {
    OutcomeOf(ttl, w, a);
    var o, w' := StepOf(ttl, w, a), Next(ttl, w, a);
    forall pid | pid in w'.processes && w'.processes[pid].call.Some?
      ensures
        var c := w'.processes[pid].call.value;
        c.nonce == NonceOf(w'.disk) && Bars(w'.disk.marker, c.identity) ==> c.stale.None?
    {
      if pid != a.pid {
        assert pid in w.processes && w.processes[pid].call.Some?;
      } else {
        NewCall(ttl, w, a);
      }
    }
  }

  lemma {:induction false} RunsBarCalls(ttl: Ttl, actions: seq<Action>)
    requires Run(ttl, actions).Some?
    ensures BarredCalls(Run(ttl, actions).value)
    decreases |actions|
  {
    if actions != [] {
      var before := actions[..|actions| - 1];
      RunsBarCalls(ttl, before);
      RunsLoseNoUpdate(ttl, before);
      StepBarredCalls(ttl, Run(ttl, before).value, actions[|actions| - 1]);
    }
  }

  lemma LooseServesOlder(ttl: Ttl, w: World, id: Identity, t: nat) returns (a: Action)
    requires BarredCalls(w) && !HeldOff(w, id, t)
    ensures ServesOlder(ttl, w, a, id, t) && Whole(a)
  {
    var nonce := Beyond(w.used);
    if pid :| pid in w.processes && w.processes[pid].call.Some?
              && w.processes[pid].call.value.identity == id && w.processes[pid].call.value.nonce == NonceOf(w.disk)
              && (w.processes[pid].call.value.began <= t
                  || (w.processes[pid].call.value.stale.Some? && w.processes[pid].call.value.stale.value.began <= t)) {
      a := CallServes(ttl, w, id, t, pid, nonce);
    } else {
      var pid := UnstartedProcess(w);
      CacheIsServed(ttl, w, id, t, pid);
      a := Begin(pid, id, w.disk.cache.value.fetchedAt, false);
    }
  }

  /** Among continuations whose writes go through whole or not at all, a marker that bars the identity is enough. */
  lemma HoldsOffIffHeldOff(ttl: Ttl, actions: seq<Action>, id: Identity, t: nat)
    requires Run(ttl, actions).Some? && t < Run(ttl, actions).value.clock
    ensures HoldsOff(ttl, actions, id, t) <==> HeldOff(Run(ttl, actions).value, id, t)
  {
    var w := Run(ttl, actions).value;
    if HeldOff(w, id, t) {
      forall more: seq<Action> | Run(ttl, actions + more).Some? && (forall b | b in more :: Whole(b))
        ensures ServedSince(Run(ttl, actions + more).value.log, |w.log|, id, t)
      {
        RunsHoldOff(ttl, actions, more, id, t);
      }
    } else {
      RunsBarCalls(ttl, actions);
      var a := LooseServesOlder(ttl, w, id, t);
      RunNext(ttl, actions, a);
      ServedInLog(ttl, w, a, |w.log|, id, t);
      assert forall b | b in [a] :: Whole(b);
    }
  }

  /**
    What an invalidation that wrote nothing leaves behind even then: a call of another process that can still commit,
    or the identity's cache, unless an earlier marker bars it.
   */
  ghost predicate Lingers(w: World, a: Action, id: Identity)
    requires Enabled(w, a) && !a.Begin?
  {
    !a.write.marker && (Overlapped(w, a, id) || (Cached(w, id) && !Bars(w.disk.marker, id)))
  }

  lemma HeldOffUnlessLingers(ttl: Ttl, w: World, a: Action, id: Identity)
    requires Enabled(w, a) && Sound(w) && CacheIsOld(w) && Invalidates(w, a) == Some(id)
    ensures HeldOff(Next(ttl, w, a), id, w.clock) <==> !Lingers(w, a, id)
  {
    var w' := Next(ttl, w, a);
    InvalidatedDisk(ttl, w, a, id);
    CleanUnlessSurvives(ttl, w, a, id);
    if a.write.marker {
      DroppingHoldsOff(ttl, w, a, Dropped(a.pid, id, a.write.cache));
    } else if Overlapped(w, a, id) {
      var pid :| pid in w.processes && pid != a.pid && w.processes[pid].call.Some?
                 && w.processes[pid].call.value.identity == id && w.processes[pid].call.value.nonce == NonceOf(w.disk);
      assert pid in w'.processes && w'.processes[pid].call.Some? && w'.disk == w.disk;
    } else {
      forall pid | pid in w'.processes && w'.processes[pid].call.Some? && w'.processes[pid].call.value.identity == id
        ensures w'.processes[pid].call.value.nonce != NonceOf(w'.disk)
      {
        assert pid != a.pid && pid in w.processes && w.processes[pid].call.Some?;
      }
    }
  }

  /**
    After any run that ends in an invalidation: as long as later writes go through whole or not at all, nothing older
    is served for the identity in any continuation, exactly when the marker was written or nothing lingers.
   */
  lemma HeldOffIffMarkedOrGone(ttl: Ttl, actions: seq<Action>, a: Action, id: Identity)
    requires Run(ttl, actions).Some? && Enabled(Run(ttl, actions).value, a)
    requires Invalidates(Run(ttl, actions).value, a) == Some(id)
    ensures
      var w := Run(ttl, actions).value;
      && Run(ttl, actions + [a]).Some?
      && (HoldsOff(ttl, actions + [a], id, w.clock) <==> !Lingers(w, a, id))
  {
    var w := Run(ttl, actions).value;
    RunNext(ttl, actions, a);
    RunsLoseNoUpdate(ttl, actions);
    RunsCacheOld(ttl, actions);
    HoldsOffIffHeldOff(ttl, actions + [a], id, w.clock);
    HeldOffUnlessLingers(ttl, w, a, id);
  }

  // ---------- From the beginning ----------

  const ALICE := Identity("alice", 1, "hash-a")
  const BOB := Identity("bob", 1, "hash-b")

  const WHOLE := Write(true, true, true)
  const HALF := Write(true, false, false)
  const NONE := Write(false, false, false)

  /** A first process fetches and commits, then is told to invalidate, and the writes get so far. */
  function FetchedThenDropped(write: Write): seq<Action> {
    [Begin(0, ALICE, 100, false), Finish(0, Fetched(["old"], None), 1, WHOLE), Invalidate(0, ALICE, 2, write)]
  }

  lemma FetchedThenDroppedRuns(ttl: Ttl, write: Write)
    requires Legal(write) && !write.cache
    ensures
      var r := Run(ttl, FetchedThenDropped(write));
      && r.Some? && r.value.used == {1, 2} && r.value.processes.Keys == {0} && r.value.clock == 3
      && r.value.disk == Disk(Some(if write.marker then Marker(ALICE, 2, true) else Marker(ALICE, 1, false)),
                              Some(Cache(ALICE, 100, None, ["old"], 0)))
  {
    var a := FetchedThenDropped(write);
    RunNext(ttl, [], a[0]);
    assert [] + [a[0]] == [a[0]];
    RunNext(ttl, [a[0]], a[1]);
    assert [a[0]] + [a[1]] == [a[0], a[1]];
    RunNext(ttl, [a[0], a[1]], a[2]);
    assert [a[0], a[1]] + [a[2]] == a;
  }

  /** Neither write happened: another process is served the old cache at once. */
  lemma NothingWrittenIsNotEnough(ttl: Ttl)
    ensures
      var r := Run(ttl, FetchedThenDropped(NONE) + [Begin(1, ALICE, 100, false)]);
      r.Some? && exists d | d in r.value.log :: d.at == 3 && d.entry == Served(1, ALICE, ["old"], FreshCache, 0, 0, 1)
  {
    FetchedThenDroppedRuns(ttl, NONE);
    RunNext(ttl, FetchedThenDropped(NONE), Begin(1, ALICE, 100, false));
    var log := Run(ttl, FetchedThenDropped(NONE) + [Begin(1, ALICE, 100, false)]).value.log;
    assert log[|log| - 1] in log;
  }

  /** Another identity's refresh that got no further than its marker. */
  const LIFTED := FetchedThenDropped(HALF) + [Begin(1, BOB, 100, true), Finish(1, Fetched([], None), 3, HALF)]

  lemma LiftedRuns(ttl: Ttl)
    ensures
      var r := Run(ttl, LIFTED);
      && r.Some? && r.value.clock == 5 && r.value.processes.Keys == {0, 1} && r.value.used == {1, 2, 3}
      && r.value.disk == Disk(Some(Marker(BOB, 3, false)), Some(Cache(ALICE, 100, None, ["old"], 0)))
  {
    FetchedThenDroppedRuns(ttl, HALF);
    var w := Run(ttl, FetchedThenDropped(HALF)).value;
    var begin, finish := Begin(1, BOB, 100, true), Finish(1, Fetched([], None), 3, HALF);
    assert Next(ttl, w, begin).processes[1].call.value.nonce == Some(2);
    RunTwice(ttl, FetchedThenDropped(HALF), begin, finish);
  }

  /** The marker alone is not enough: once it is overwritten, a third process is served the old cache while it is fresh. */
  lemma MarkerAloneIsNotEnough(ttl: Ttl)
    ensures
      var r := Run(ttl, LIFTED + [Begin(2, ALICE, 100, false)]);
      r.Some? && exists d | d in r.value.log :: d.at == 5 && d.entry == Served(2, ALICE, ["old"], FreshCache, 0, 0, 1)
  {
    LiftedRuns(ttl);
    RunNext(ttl, LIFTED, Begin(2, ALICE, 100, false));
    var log := Run(ttl, LIFTED + [Begin(2, ALICE, 100, false)]).value.log;
    assert log[|log| - 1] in log;
  }

  /** And once it is too old for that, as the fallback when the upstream cannot be reached. */
  lemma StaleFallbackIsServedToo(ttl: Ttl)
    requires ttl.normal < ttl.stale
    ensures
      var r := Run(ttl, LIFTED + [Begin(2, ALICE, 100 + ttl.stale, false), Finish(2, Unavailable, 4, NONE)]);
      r.Some? && exists d | d in r.value.log :: d.at == 6 && d.entry == Served(2, ALICE, ["old"], StaleCache, ttl.stale, 0, 1)
  {
    LiftedRuns(ttl);
    var begin, finish := Begin(2, ALICE, 100 + ttl.stale, false), Finish(2, Unavailable, 4, NONE);
    var lifted := Run(ttl, LIFTED).value;
    StaleIsRead(ttl, lifted);
    var w := Next(ttl, lifted, begin);
    FallenBack(ttl, w);
    RunTwice(ttl, LIFTED, begin, finish);
    var log := Next(ttl, w, finish).log;
    assert log[|log| - 1] in log;
  }

  lemma StaleIsRead(ttl: Ttl, w: World)
    requires ttl.normal < ttl.stale && ProcessOf(w, 2) == Started
    requires w.disk == Disk(Some(Marker(BOB, 3, false)), Some(Cache(ALICE, 100, None, ["old"], 0)))
    ensures
      var w' := Next(ttl, w, Begin(2, ALICE, 100 + ttl.stale, false));
      && w'.disk == w.disk && w'.used == w.used && w'.clock == w.clock + 1
      && ProcessOf(w', 2) == Started.(call := Some(Call(ALICE, Some(3), w.disk.cache, 100 + ttl.stale, w.clock)))
  {
  }

  lemma FallenBack(ttl: Ttl, w: World)
    requires 4 !in w.used && NonceOf(w.disk) == Some(3)
    requires ProcessOf(w, 2).call.Some? && ProcessOf(w, 2).publication == Publication(None, 0)
    requires
      var c := ProcessOf(w, 2).call.value;
      && c.identity == ALICE && c.nonce == Some(3) && c.now == 100 + ttl.stale
      && c.stale == Some(Cache(ALICE, 100, None, ["old"], 0))
    ensures Enabled(w, Finish(2, Unavailable, 4, NONE))
    ensures
      var log := Next(ttl, w, Finish(2, Unavailable, 4, NONE)).log;
      log != [] && log[|log| - 1] == Dated(w.clock, Served(2, ALICE, ["old"], StaleCache, ttl.stale, 0, 1))
  {
  }
}
