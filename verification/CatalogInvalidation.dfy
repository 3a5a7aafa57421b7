/** What a process may still serve after an identity was invalidated. */
module CatalogInvalidation {
  import opened Wrappers
  import opened ModelCatalog

  /** Nothing on disk, and no call that can still commit or fall back, holds models fetched by `t`. */
  ghost predicate Clean(w: World, id: Identity, t: nat) {
    && (w.disk.cache.Some? && w.disk.cache.value.identity == id ==> w.disk.cache.value.began > t)
    && (forall pid | pid in w.processes && w.processes[pid].call.Some? ::
          var c := w.processes[pid].call.value;
          c.identity == id && c.nonce == NonceOf(w.disk) ==>
            c.began > t && (c.stale.Some? ==> c.stale.value.began > t))
  }

  /** A call reuses only the cache it read for its own identity. */
  ghost predicate OwnStale(w: World) {
    forall pid | pid in w.processes && w.processes[pid].call.Some? ::
      var c := w.processes[pid].call.value;
      c.stale.Some? ==> c.stale.value.identity == c.identity
  }

  lemma StepOwnStale(ttl: Ttl, w: World, a: Action)
    requires Enabled(w, a) && OwnStale(w)
    ensures OwnStale(Next(ttl, w, a))
  {
  }

  /** A clean world stays clean and serves only what was fetched later. */
  lemma StepClean(ttl: Ttl, w: World, a: Action, id: Identity, t: nat)
    requires Enabled(w, a) && Sound(w) && OwnStale(w) && t < w.clock && Clean(w, id, t)
    ensures Clean(Next(ttl, w, a), id, t)
    ensures forall e | e in StepOf(ttl, w, a).entries && e.Served? && e.identity == id :: e.fetchBegan > t
  {
    OutcomeOf(ttl, w, a);
    var o, w' := StepOf(ttl, w, a), Next(ttl, w, a);
    CleanDisk(ttl, w, a, id, t);
    forall pid | pid in w'.processes && w'.processes[pid].call.Some?
      ensures
        var c := w'.processes[pid].call.value;
        c.identity == id && c.nonce == NonceOf(w'.disk) ==>
          c.began > t && (c.stale.Some? ==> c.stale.value.began > t)
    {
      if pid != a.pid {
        assert pid in w.processes && w.processes[pid].call.Some?;
      } else {
        NewCall(ttl, w, a);
      }
    }
  }

  lemma NewCall(ttl: Ttl, w: World, a: Action)
    requires Enabled(w, a) && StepOf(ttl, w, a).process.call.Some?
    ensures
      var c := StepOf(ttl, w, a).process.call.value;
      && a.Begin? && c.began == w.clock
      && (c.stale.Some? ==> c.stale == w.disk.cache && c.stale.value.identity == c.identity)
      && (c.stale.Some? ==> c.identity !in ProcessOf(w, a.pid).invalidated)
  {
  }

  lemma CleanDisk(ttl: Ttl, w: World, a: Action, id: Identity, t: nat)
    requires Enabled(w, a) && OwnStale(w) && t < w.clock && Clean(w, id, t)
    ensures
      var o := StepOf(ttl, w, a);
      && (o.disk.cache.Some? && o.disk.cache.value.identity == id ==> o.disk.cache.value.began > t)
      && (forall e | e in o.entries && e.Served? && e.identity == id :: e.fetchBegan > t)
  {
    if a.Finish? {
      var p := ProcessOf(w, a.pid);
      assert a.pid in w.processes && w.processes[a.pid].call.Some?;
    }
  }

  /** Invalidating with both writes done cleans the world. */
  lemma DroppingCleans(ttl: Ttl, w: World, a: Action, e: Entry)
    requires Enabled(w, a) && Sound(w) && e in StepOf(ttl, w, a).entries && e.Dropped? && e.persisted
    ensures Clean(Next(ttl, w, a), e.identity, w.clock)
  {
    OutcomeOf(ttl, w, a);
    var w' := Next(ttl, w, a);
    assert w'.disk.cache.None? && NonceOf(w'.disk) == Some(a.nonce);
    forall pid | pid in w'.processes && w'.processes[pid].call.Some?
      ensures w'.processes[pid].call.value.nonce != NonceOf(w'.disk)
    {
      if pid != a.pid {
        assert pid in w.processes && w.processes[pid].call.Some?;
      }
    }
  }

  /** Whatever is served after a persisted invalidation was fetched after it. */
  ghost predicate Honoured(w: World) {
    forall i | 0 <= i < |w.log| && w.log[i].entry.Dropped? && w.log[i].entry.persisted ::
      && Clean(w, w.log[i].entry.identity, w.log[i].at)
      && ServedLater(w.log, i, w.log[i].entry.identity, w.log[i].at)
  }

  ghost predicate ServedLater(log: seq<Dated>, i: nat, id: Identity, t: nat) {
    forall j | i < j < |log| && log[j].entry.Served? && log[j].entry.identity == id :: log[j].entry.fetchBegan > t
  }

  lemma StepHonoured(ttl: Ttl, w: World, a: Action)
    requires Enabled(w, a) && Sound(w) && OwnStale(w) && Honoured(w)
    ensures Honoured(Next(ttl, w, a))
  {
    var o, w' := StepOf(ttl, w, a), Next(ttl, w, a);
    forall i | 0 <= i < |w'.log| && w'.log[i].entry.Dropped? && w'.log[i].entry.persisted
      ensures Clean(w', w'.log[i].entry.identity, w'.log[i].at)
      ensures ServedLater(w'.log, i, w'.log[i].entry.identity, w'.log[i].at)
    {
      var id, t := w'.log[i].entry.identity, w'.log[i].at;
      if i < |w.log| {
        assert w.log[i] in w.log;
        StepClean(ttl, w, a, id, t);
        ServedLonger(w.log, i, id, t, w.clock, o.entries);
      } else {
        assert w'.log[i].entry == o.entries[i - |w.log|];
        DroppingCleans(ttl, w, a, w'.log[i].entry);
        DroppingServesNothing(ttl, w, a);
      }
    }
  }

  lemma ServedLonger(log: seq<Dated>, i: nat, id: Identity, t: nat, clock: nat, entries: seq<Entry>)
    requires ServedLater(log, i, id, t)
    requires forall e | e in entries && e.Served? && e.identity == id :: e.fetchBegan > t
    ensures ServedLater(log + At(clock, entries), i, id, t)
  {
    var longer := log + At(clock, entries);
    forall j | i < j < |longer| && longer[j].entry.Served? && longer[j].entry.identity == id
      ensures longer[j].entry.fetchBegan > t
    {
      if j >= |log| {
        assert longer[j].entry == entries[j - |log|];
      }
    }
  }

  lemma DroppingServesNothing(ttl: Ttl, w: World, a: Action)
    requires Enabled(w, a) && exists e :: e in StepOf(ttl, w, a).entries && e.Dropped?
    ensures forall e | e in StepOf(ttl, w, a).entries :: !e.Served?
  {
  }

  lemma {:induction false} RunsHonourInvalidation(ttl: Ttl, actions: seq<Action>)
    requires Run(ttl, actions).Some?
    ensures Honoured(Run(ttl, actions).value) && OwnStale(Run(ttl, actions).value)
    decreases |actions|
  {
    if actions != [] {
      var before, a := Run(ttl, actions[..|actions| - 1]).value, actions[|actions| - 1];
      RunsHonourInvalidation(ttl, actions[..|actions| - 1]);
      RunsLoseNoUpdate(ttl, actions[..|actions| - 1]);
      StepOwnStale(ttl, before, a);
      StepHonoured(ttl, before, a);
    }
  }

  // ---------- An invalidation that could not be written ----------

  /** The process that invalidated keeps away from the disk until it has committed what it fetched itself. */
  ghost predicate Shunned(w: World, pid: nat, id: Identity, t: nat) {
    var p := ProcessOf(w, pid);
    id in p.invalidated && (p.call.Some? && p.call.value.identity == id ==> p.call.value.stale.None? && p.call.value.began > t)
  }

  ghost predicate Guarded(w: World, pid: nat, id: Identity, t: nat) {
    Clean(w, id, t) || Shunned(w, pid, id, t)
  }

  lemma StepGuarded(ttl: Ttl, w: World, a: Action, pid: nat, id: Identity, t: nat)
    requires Enabled(w, a) && Sound(w) && OwnStale(w) && t < w.clock && Guarded(w, pid, id, t)
    ensures Guarded(Next(ttl, w, a), pid, id, t)
    ensures forall e | e in StepOf(ttl, w, a).entries && e.Served? && e.pid == pid && e.identity == id :: e.fetchBegan > t
  {
    if Clean(w, id, t) {
      StepClean(ttl, w, a, id, t);
    } else if a.pid != pid {
      ServedByItself(ttl, w, a);
    } else {
      StepShunned(ttl, w, a, id, t);
    }
  }

  lemma ServedByItself(ttl: Ttl, w: World, a: Action)
    requires Enabled(w, a)
    ensures forall e | e in StepOf(ttl, w, a).entries && e.Served? :: e.pid == a.pid
  {
  }

  lemma StepShunned(ttl: Ttl, w: World, a: Action, id: Identity, t: nat)
    requires Enabled(w, a) && Sound(w) && t < w.clock && Shunned(w, a.pid, id, t)
    ensures Guarded(Next(ttl, w, a), a.pid, id, t)
    ensures forall e | e in StepOf(ttl, w, a).entries && e.Served? && e.identity == id :: e.fetchBegan > t
  {
    if a.Finish? {
      FinishShunned(ttl, w, a, id, t);
    }
  }

  lemma FinishShunned(ttl: Ttl, w: World, a: Action, id: Identity, t: nat)
    requires Enabled(w, a) && Sound(w) && t < w.clock && Shunned(w, a.pid, id, t) && a.Finish?
    ensures Guarded(Next(ttl, w, a), a.pid, id, t)
    ensures forall e | e in StepOf(ttl, w, a).entries && e.Served? && e.identity == id :: e.fetchBegan > t
  {
    var c := ProcessOf(w, a.pid).call.value;
    if c.identity == id && a.answer.Fetched? && NonceOf(w.disk) == c.nonce && a.write.done {
      OwnCommitCleans(ttl, w, a, t);
    } else {
      KeepsShunning(ttl, w, a, id);
    }
  }

  /** Unless it commits what it fetched itself, the process goes on shunning the disk. */
  lemma KeepsShunning(ttl: Ttl, w: World, a: Action, id: Identity)
    requires Enabled(w, a) && a.Finish? && id in ProcessOf(w, a.pid).invalidated
    requires
      var c := ProcessOf(w, a.pid).call.value;
      && !(c.identity == id && a.answer.Fetched? && NonceOf(w.disk) == c.nonce && a.write.done)
      && (c.identity == id ==> c.stale.None?)
    ensures
      var o := StepOf(ttl, w, a);
      && id in o.process.invalidated && o.process.call.None?
      && forall e | e in o.entries && e.Served? :: e.identity != id
  {
  }

  /** Committing what the process fetched itself after `t` cleans the world. */
  lemma OwnCommitCleans(ttl: Ttl, w: World, a: Action, t: nat)
    requires Enabled(w, a) && Sound(w) && a.Finish? && a.answer.Fetched? && a.write.done
    requires var c := ProcessOf(w, a.pid).call.value; NonceOf(w.disk) == c.nonce && c.began > t
    ensures Clean(Next(ttl, w, a), ProcessOf(w, a.pid).call.value.identity, t)
  {
    var w' := Next(ttl, w, a);
    assert NonceOf(w'.disk) == Some(a.nonce);
    forall pid | pid in w'.processes && w'.processes[pid].call.Some?
      ensures w'.processes[pid].call.value.nonce != NonceOf(w'.disk)
    {
      if pid != a.pid {
        assert pid in w.processes && w.processes[pid].call.Some?;
      }
    }
  }

  ghost predicate HonouredAtHome(w: World) {
    forall i | 0 <= i < |w.log| && w.log[i].entry.Dropped? ::
      && Guarded(w, w.log[i].entry.pid, w.log[i].entry.identity, w.log[i].at)
      && ServedLaterBy(w.log, i, w.log[i].entry.pid, w.log[i].entry.identity, w.log[i].at)
  }

  ghost predicate ServedLaterBy(log: seq<Dated>, i: nat, pid: nat, id: Identity, t: nat) {
    forall j | i < j < |log| && log[j].entry.Served? && log[j].entry.pid == pid && log[j].entry.identity == id ::
      log[j].entry.fetchBegan > t
  }

  lemma DroppingShuns(ttl: Ttl, w: World, a: Action, e: Entry)
    requires Enabled(w, a) && e in StepOf(ttl, w, a).entries && e.Dropped?
    ensures Shunned(Next(ttl, w, a), e.pid, e.identity, w.clock)
  {
  }

  lemma StepHonouredAtHome(ttl: Ttl, w: World, a: Action)
    requires Enabled(w, a) && Sound(w) && OwnStale(w) && HonouredAtHome(w)
    ensures HonouredAtHome(Next(ttl, w, a))
  {
    var o, w' := StepOf(ttl, w, a), Next(ttl, w, a);
    forall i | 0 <= i < |w'.log| && w'.log[i].entry.Dropped?
      ensures Guarded(w', w'.log[i].entry.pid, w'.log[i].entry.identity, w'.log[i].at)
      ensures ServedLaterBy(w'.log, i, w'.log[i].entry.pid, w'.log[i].entry.identity, w'.log[i].at)
    {
      var pid, id, t := w'.log[i].entry.pid, w'.log[i].entry.identity, w'.log[i].at;
      if i < |w.log| {
        assert w.log[i] in w.log;
        StepGuarded(ttl, w, a, pid, id, t);
        ServedLongerBy(w.log, i, pid, id, t, w.clock, o.entries);
      } else {
        assert w'.log[i].entry == o.entries[i - |w.log|];
        DroppingShuns(ttl, w, a, w'.log[i].entry);
        DroppingServesNothing(ttl, w, a);
      }
    }
  }

  lemma ServedLongerBy(log: seq<Dated>, i: nat, pid: nat, id: Identity, t: nat, clock: nat, entries: seq<Entry>)
    requires ServedLaterBy(log, i, pid, id, t)
    requires forall e | e in entries && e.Served? && e.pid == pid && e.identity == id :: e.fetchBegan > t
    ensures ServedLaterBy(log + At(clock, entries), i, pid, id, t)
  {
    var longer := log + At(clock, entries);
    forall j | i < j < |longer| && longer[j].entry.Served? && longer[j].entry.pid == pid && longer[j].entry.identity == id
      ensures longer[j].entry.fetchBegan > t
    {
      if j >= |log| {
        assert longer[j].entry == entries[j - |log|];
      }
    }
  }

  /** However far its writes got, an invalidation is honoured by the process that made it. */
  lemma {:induction false} RunsHonourAtHome(ttl: Ttl, actions: seq<Action>)
    requires Run(ttl, actions).Some?
    ensures HonouredAtHome(Run(ttl, actions).value)
    decreases |actions|
  {
    if actions != [] {
      var before, a := Run(ttl, actions[..|actions| - 1]).value, actions[|actions| - 1];
      RunsHonourAtHome(ttl, actions[..|actions| - 1]);
      RunsHonourInvalidation(ttl, actions[..|actions| - 1]);
      RunsLoseNoUpdate(ttl, actions[..|actions| - 1]);
      StepHonouredAtHome(ttl, before, a);
    }
  }
}
