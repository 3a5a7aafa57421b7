/** Half-written invalidations, where served models come from, and what is published. */
module CatalogHistory {
  import opened Wrappers
  import opened ModelCatalog
  import opened CatalogInvalidation

  // ---------- An invalidation that only reached the marker ----------

  /** The marker says not to use the identity's cache, and no call that can still commit read it before. */
  ghost predicate Barred(w: World, id: Identity, t: nat) {
    && w.disk.marker.Some? && w.disk.marker.value.identity == id && w.disk.marker.value.invalidated
    && forall pid | pid in w.processes && w.processes[pid].call.Some? ::
         var c := w.processes[pid].call.value;
         c.identity == id && c.nonce == NonceOf(w.disk) ==> c.began > t && c.stale.None?
  }

  ghost predicate HeldOff(w: World, id: Identity, t: nat) {
    Clean(w, id, t) || Barred(w, id, t)
  }

  predicate Whole(a: Action) {
    a.Begin? || (a.write.marker ==> a.write.cache)
  }

  /** As long as writes go through whole or not at all, a marker alone holds an identity off too. */
  lemma StepHeldOff(ttl: Ttl, w: World, a: Action, id: Identity, t: nat)
    requires Enabled(w, a) && Sound(w) && OwnStale(w) && t < w.clock && HeldOff(w, id, t) && Whole(a)
    ensures HeldOff(Next(ttl, w, a), id, t)
    ensures forall e | e in StepOf(ttl, w, a).entries && e.Served? && e.identity == id :: e.fetchBegan > t
  {
    if Clean(w, id, t) {
      StepClean(ttl, w, a, id, t);
    } else if a.Begin? || !a.write.marker {
      QuietHeldOff(ttl, w, a, id, t);
    } else {
      WholeWriteCleans(ttl, w, a, id, t);
    }
  }

  lemma QuietHeldOff(ttl: Ttl, w: World, a: Action, id: Identity, t: nat)
    requires Enabled(w, a) && Sound(w) && t < w.clock && Barred(w, id, t)
    requires a.Begin? || !a.write.marker
    ensures Barred(Next(ttl, w, a), id, t)
    ensures forall e | e in StepOf(ttl, w, a).entries && e.Served? && e.identity == id :: e.fetchBegan > t
  {
    var o, w' := StepOf(ttl, w, a), Next(ttl, w, a);
    if a.Finish? {
      assert a.pid in w.processes && w.processes[a.pid].call.Some?;
    }
    assert o.disk.marker == w.disk.marker;
    forall pid | pid in w'.processes && w'.processes[pid].call.Some?
      ensures
        var c := w'.processes[pid].call.value;
        c.identity == id && c.nonce == NonceOf(w'.disk) ==> c.began > t && c.stale.None?
    {
      if pid != a.pid {
        assert pid in w.processes && w.processes[pid].call.Some?;
      } else {
        NewCall(ttl, w, a);
      }
    }
  }

  lemma WholeWriteCleans(ttl: Ttl, w: World, a: Action, id: Identity, t: nat)
    requires Enabled(w, a) && Sound(w) && OwnStale(w) && t < w.clock && Barred(w, id, t)
    requires !a.Begin? && a.write.marker && a.write.cache
    ensures HeldOff(Next(ttl, w, a), id, t)
    ensures forall e | e in StepOf(ttl, w, a).entries && e.Served? && e.identity == id :: e.fetchBegan > t
  {
    OutcomeOf(ttl, w, a);
    var o, w' := StepOf(ttl, w, a), Next(ttl, w, a);
    if a.Finish? {
      assert a.pid in w.processes && w.processes[a.pid].call.Some?;
    }
    forall pid | pid in w'.processes && w'.processes[pid].call.Some?
      ensures NonceOf(w'.disk) == Some(a.nonce) ==> w'.processes[pid].call.value.nonce != NonceOf(w'.disk)
    {
      if pid != a.pid {
        assert pid in w.processes && w.processes[pid].call.Some?;
      }
    }
    if o.disk == w.disk {
      assert forall pid | pid in w'.processes && w'.processes[pid].call.Some? ::
          pid in w.processes && w'.processes[pid] == w.processes[pid];
      assert Barred(w', id, t);
    } else {
      assert Clean(w', id, t);
    }
  }

  lemma DroppingHoldsOff(ttl: Ttl, w: World, a: Action, e: Entry)
    requires Enabled(w, a) && Sound(w) && e in StepOf(ttl, w, a).entries && e.Dropped? && a.write.marker
    ensures HeldOff(Next(ttl, w, a), e.identity, w.clock)
  {
    OutcomeOf(ttl, w, a);
    var w' := Next(ttl, w, a);
    assert NonceOf(w'.disk) == Some(a.nonce);
    forall pid | pid in w'.processes && w'.processes[pid].call.Some?
      ensures w'.processes[pid].call.value.nonce != NonceOf(w'.disk)
    {
      if pid != a.pid {
        assert pid in w.processes && w.processes[pid].call.Some?;
      }
    }
    assert Barred(w', e.identity, w.clock);
  }

  ghost predicate ServedSince(log: seq<Dated>, from: nat, id: Identity, t: nat) {
    forall j | from <= j < |log| && log[j].entry.Served? && log[j].entry.identity == id :: log[j].entry.fetchBegan > t
  }

  lemma {:induction false} LogOnlyGrows(ttl: Ttl, actions: seq<Action>, more: seq<Action>)
    requires Run(ttl, actions + more).Some?
    ensures Run(ttl, actions).Some? && |Run(ttl, actions).value.log| <= |Run(ttl, actions + more).value.log|
    decreases |more|
  {
    if more == [] {
      assert actions + more == actions;
    } else {
      assert (actions + more)[..|actions + more| - 1] == actions + more[..|more| - 1];
      LogOnlyGrows(ttl, actions, more[..|more| - 1]);
    }
  }

  /** However a run goes on, as long as no write stops half-way, nothing older is served. */
  lemma {:induction false} RunsHoldOff(ttl: Ttl, actions: seq<Action>, more: seq<Action>, id: Identity, t: nat)
    requires Run(ttl, actions).Some? && t < Run(ttl, actions).value.clock && HeldOff(Run(ttl, actions).value, id, t)
    requires Run(ttl, actions + more).Some? && forall a | a in more :: Whole(a)
    ensures
      var w := Run(ttl, actions + more).value;
      t < w.clock && HeldOff(w, id, t) && ServedSince(w.log, |Run(ttl, actions).value.log|, id, t)
    decreases |more|
  {
    if more == [] {
      assert actions + more == actions;
    } else {
      var a, rest := more[|more| - 1], actions + more[..|more| - 1];
      assert (actions + more)[..|actions + more| - 1] == rest && a in more;
      RunsHoldOff(ttl, actions, more[..|more| - 1], id, t);
      RunsLoseNoUpdate(ttl, rest);
      RunsHonourInvalidation(ttl, rest);
      LogOnlyGrows(ttl, actions, more[..|more| - 1]);
      HoldOffOnce(ttl, Run(ttl, rest).value, a, |Run(ttl, actions).value.log|, id, t);
    }
  }

  lemma HoldOffOnce(ttl: Ttl, w: World, a: Action, from: nat, id: Identity, t: nat)
    requires Enabled(w, a) && Sound(w) && OwnStale(w) && t < w.clock && HeldOff(w, id, t) && Whole(a)
    requires ServedSince(w.log, from, id, t)
    ensures HeldOff(Next(ttl, w, a), id, t) && ServedSince(Next(ttl, w, a).log, from, id, t)
  {
    StepHeldOff(ttl, w, a, id, t);
    var o, w' := StepOf(ttl, w, a), Next(ttl, w, a);
    forall j | from <= j < |w'.log| && w'.log[j].entry.Served? && w'.log[j].entry.identity == id
      ensures w'.log[j].entry.fetchBegan > t
    {
      if j >= |w.log| {
        assert w'.log[j].entry == o.entries[j - |w.log|];
      }
    }
  }

  // ---------- Where models come from ----------

  /** The models came in an answer to a call for that identity that began at that time. */
  ghost predicate Known(log: seq<Dated>, id: Identity, models: Models, began: nat) {
    exists d :: d in log && d.entry == Received(id, models, began)
  }

  ghost predicate Sourced(w: World) {
    && (w.disk.cache.Some? ==>
          var c := w.disk.cache.value; Known(w.log, c.identity, c.models, c.began))
    && (forall pid | pid in w.processes && w.processes[pid].call.Some? && w.processes[pid].call.value.stale.Some? ::
          var c := w.processes[pid].call.value.stale.value; Known(w.log, c.identity, c.models, c.began))
    && (forall d | d in w.log && d.entry.Served? ::
          Known(w.log, d.entry.identity, d.entry.models, d.entry.fetchBegan))
  }

  lemma KnownLater(log: seq<Dated>, more: seq<Dated>)
    ensures forall id, models, began | Known(log, id, models, began) :: Known(log + more, id, models, began)
  {
    forall id, models, began | Known(log, id, models, began) ensures Known(log + more, id, models, began) {
      var d :| d in log && d.entry == Received(id, models, began);
      assert d in log + more;
    }
  }

  lemma StepSourced(ttl: Ttl, w: World, a: Action)
    requires Enabled(w, a) && OwnStale(w) && Sourced(w)
    ensures Sourced(Next(ttl, w, a))
  {
    var o, w' := StepOf(ttl, w, a), Next(ttl, w, a);
    KnownLater(w.log, At(w.clock, o.entries));
    OutcomeSourced(ttl, w, a);
    forall pid | pid in w'.processes && w'.processes[pid].call.Some? && w'.processes[pid].call.value.stale.Some?
      ensures var c := w'.processes[pid].call.value.stale.value; Known(w'.log, c.identity, c.models, c.began)
    {
      if pid != a.pid {
        assert pid in w.processes && w.processes[pid].call.Some?;
      } else {
        NewCall(ttl, w, a);
      }
    }
    forall d | d in w'.log && d.entry.Served?
      ensures Known(w'.log, d.entry.identity, d.entry.models, d.entry.fetchBegan)
    {
      if d !in w.log {
        assert d.entry in o.entries;
      }
    }
  }

  lemma OutcomeSourced(ttl: Ttl, w: World, a: Action)
    requires Enabled(w, a) && OwnStale(w) && Sourced(w)
    ensures
      var o, log := StepOf(ttl, w, a), Next(ttl, w, a).log;
      && (o.disk.cache.Some? ==> var c := o.disk.cache.value; Known(log, c.identity, c.models, c.began))
      && (forall e | e in o.entries && e.Served? :: Known(log, e.identity, e.models, e.fetchBegan))
  {
    var o, w' := StepOf(ttl, w, a), Next(ttl, w, a);
    KnownLater(w.log, At(w.clock, o.entries));
    if a.Finish? {
      var c := ProcessOf(w, a.pid).call.value;
      assert a.pid in w.processes && w.processes[a.pid].call.Some?;
      if a.answer.Fetched? {
        assert o.entries[0] == Received(c.identity, a.answer.models, c.began);
        assert w'.log[|w.log|] == Dated(w.clock, o.entries[0]);
        assert Known(w'.log, c.identity, a.answer.models, c.began);
      }
    }
  }

  /** Every snapshot served holds models some call received for the same identity; identities never mix. */
  lemma {:induction false} RunsServeWhatWasReceived(ttl: Ttl, actions: seq<Action>)
    requires Run(ttl, actions).Some?
    ensures Sourced(Run(ttl, actions).value)
    decreases |actions|
  {
    if actions != [] {
      var before, a := Run(ttl, actions[..|actions| - 1]).value, actions[|actions| - 1];
      RunsServeWhatWasReceived(ttl, actions[..|actions| - 1]);
      RunsHonourInvalidation(ttl, actions[..|actions| - 1]);
      StepSourced(ttl, before, a);
    }
  }

  // ---------- Publication ----------

  /** A process's generations only grow, and one generation names one catalog. */
  ghost predicate Immutable(w: World) {
    && (forall pid | pid in w.processes :: w.processes[pid].publication.slot.Some? ==>
          w.processes[pid].publication.slot.value.generation == w.processes[pid].publication.generation)
    && (forall i | 0 <= i < |w.log| && w.log[i].entry.Served? ::
          var e := w.log[i].entry;
          var p := ProcessOf(w, e.pid).publication;
          && e.generation <= p.generation
          && (p.slot.Some? && e.generation == p.generation ==> p.slot.value == Published(e.identity, e.models, e.generation)))
    && (forall i, j | 0 <= i < j < |w.log| && w.log[i].entry.Served? && w.log[j].entry.Served?
                      && w.log[i].entry.pid == w.log[j].entry.pid ::
          var e, f := w.log[i].entry, w.log[j].entry;
          e.generation <= f.generation
          && (e.generation == f.generation ==> e.identity == f.identity && e.models == f.models))
  }

  ghost predicate Publishes(before: Publication, pid: nat, o: Outcome) {
    var after := o.process.publication;
    && before.generation <= after.generation
    && (after.slot.Some? ==> after.slot.value.generation == after.generation)
    && (after.generation == before.generation ==> after.slot.None? || after == before)
    && (forall i | 0 <= i < |o.entries| && o.entries[i].Served? ::
          var e := o.entries[i];
          && i == |o.entries| - 1 && e.pid == pid && e.generation == after.generation
          && after.slot == Some(Published(e.identity, e.models, e.generation)))
  }

  lemma CommitPublishes(pid: nat, p: Process, disk: Disk, c: Call, cache: Cache, source: Source, nonce: nat, write: Write)
    requires p.publication.slot.Some? ==> p.publication.slot.value.generation == p.publication.generation
    ensures Publishes(p.publication, pid, Commit(pid, p, disk, c, cache, source, nonce, write))
  {
  }

  lemma FinishPublishes(pid: nat, p: Process, disk: Disk, c: Call, answer: Answer, nonce: nat, write: Write)
    requires p.publication.slot.Some? ==> p.publication.slot.value.generation == p.publication.generation
    ensures Publishes(p.publication, pid, FinishCall(pid, p, disk, c, answer, nonce, write))
  {
    match answer
    case Fetched(models, etag) =>
      CommitPublishes(pid, p, disk, c, Cache(c.identity, c.now, etag, models, c.began), Live, nonce, write);
      LaterBy(p.publication, pid, Received(c.identity, models, c.began),
              Commit(pid, p, disk, c, Cache(c.identity, c.now, etag, models, c.began), Live, nonce, write));
    case NotModified =>
      if c.stale.Some? {
        CommitPublishes(pid, p, disk, c, c.stale.value.(fetchedAt := c.now), RevalidatedCache, nonce, write);
      }
    case _ =>
  }

  lemma LaterBy(before: Publication, pid: nat, e: Entry, o: Outcome)
    requires Publishes(before, pid, o) && !e.Served?
    ensures Publishes(before, pid, o.(entries := [e] + o.entries))
  {
  }

  lemma PublicationStep(ttl: Ttl, w: World, a: Action)
    requires Enabled(w, a) && Immutable(w)
    ensures Publishes(ProcessOf(w, a.pid).publication, a.pid, StepOf(ttl, w, a))
  {
    assert a.pid in w.processes || ProcessOf(w, a.pid) == Started;
    if a.Finish? {
      FinishPublishes(a.pid, ProcessOf(w, a.pid), w.disk, ProcessOf(w, a.pid).call.value, a.answer, a.nonce, a.write);
    }
  }

  lemma StepImmutable(ttl: Ttl, w: World, a: Action)
    requires Enabled(w, a) && Immutable(w)
    ensures Immutable(Next(ttl, w, a))
  {
    PublicationStep(ttl, w, a);
    var o, w' := StepOf(ttl, w, a), Next(ttl, w, a);
    forall i | 0 <= i < |w'.log| && w'.log[i].entry.Served?
      ensures
        var e := w'.log[i].entry;
        var p := ProcessOf(w', e.pid).publication;
        && e.generation <= p.generation
        && (p.slot.Some? && e.generation == p.generation ==> p.slot.value == Published(e.identity, e.models, e.generation))
    {
      if i < |w.log| {
        assert w'.log[i] == w.log[i];
      } else {
        assert w'.log[i].entry == o.entries[i - |w.log|];
      }
    }
    forall i, j | 0 <= i < j < |w'.log| && w'.log[i].entry.Served? && w'.log[j].entry.Served?
                  && w'.log[i].entry.pid == w'.log[j].entry.pid
      ensures
        var e, f := w'.log[i].entry, w'.log[j].entry;
        e.generation <= f.generation
        && (e.generation == f.generation ==> e.identity == f.identity && e.models == f.models)
    {
      if j >= |w.log| {
        assert w'.log[j].entry == o.entries[j - |w.log|];
        if i < |w.log| {
          assert w'.log[i] == w.log[i];
        }
      }
    }
  }

  lemma {:induction false} RunsPublishImmutably(ttl: Ttl, actions: seq<Action>)
    requires Run(ttl, actions).Some?
    ensures Immutable(Run(ttl, actions).value)
    decreases |actions|
  {
    if actions != [] {
      var before, a := Run(ttl, actions[..|actions| - 1]).value, actions[|actions| - 1];
      RunsPublishImmutably(ttl, actions[..|actions| - 1]);
      StepImmutable(ttl, before, a);
    }
  }
}
