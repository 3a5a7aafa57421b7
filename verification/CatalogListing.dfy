/** How a list call is answered: from the cache, by the upstream, or not at all. */
module CatalogListing {
  // Read off the actions of a run and the log, for every run.

  import opened Wrappers
  import opened ModelCatalog

  /** The cache on disk is the identity's, and neither the process nor the marker bars it; its age is known. */
  predicate MayUse(w: World, pid: nat, id: Identity, now: nat) {
    && w.disk.cache.Some? && w.disk.cache.value.identity == id && w.disk.cache.value.fetchedAt <= now
    && id !in ProcessOf(w, pid).invalidated
    && !(w.disk.marker.Some? && w.disk.marker.value.identity == id && w.disk.marker.value.invalidated)
  }

  function Age(w: World, now: nat): int
    requires w.disk.cache.Some?
  {
    now - w.disk.cache.value.fetchedAt
  }

  function NewEntries(w: World, w': World): seq<Dated> {
    if |w.log| <= |w'.log| then w'.log[|w.log|..] else []
  }

  lemma StepLogs(ttl: Ttl, w: World, a: Action)
    requires Enabled(w, a)
    ensures
      var w' := Next(ttl, w, a);
      NewEntries(w, w') == At(w.clock, StepOf(ttl, w, a).entries) && w'.log == w.log + NewEntries(w, w')
  {
  }

  /**
    A call is answered at once exactly if it is not forced and meets a cache it may use that is fresh enough; then it is
    served that cache's models with their age. Any other call serves nothing and waits for the upstream, holding the
    marker's nonce and, if the cache may be used and is not too old, the cache to fall back to.
   */
  lemma BeginAnswers(ttl: Ttl, w: World, a: Action)
    requires Enabled(w, a) && a.Begin?
    ensures
      var w' := Next(ttl, w, a);
      var call, logged := ProcessOf(w', a.pid).call, NewEntries(w, w');
      && w'.disk == w.disk
      && (if !a.force && MayUse(w, a.pid, a.identity, a.now) && Age(w, a.now) <= ttl.normal then
            && call.None? && |logged| == 1 && logged[0].at == w.clock
            && logged[0].entry.Served? && logged[0].entry.pid == a.pid && logged[0].entry.identity == a.identity
            && logged[0].entry.source == FreshCache && logged[0].entry.models == w.disk.cache.value.models
            && logged[0].entry.age == Age(w, a.now) && logged[0].entry.fetchBegan == w.disk.cache.value.began
          else
            && logged == [] && call.Some? && call.value.identity == a.identity && call.value.now == a.now
            && call.value.began == w.clock
            && call.value.nonce == (if w.disk.marker.Some? then Some(w.disk.marker.value.nonce) else None)
            && call.value.stale ==
                 (if MayUse(w, a.pid, a.identity, a.now) && Age(w, a.now) <= ttl.stale then w.disk.cache else None))
  {
    StepLogs(ttl, w, a);
  }

  /** The marker is still the one the call read. */
  predicate Unchanged(w: World, c: Call) {
    c.nonce == (if w.disk.marker.Some? then Some(w.disk.marker.value.nonce) else None)
  }

  predicate Serves(e: Entry, a: Action, c: Call, cache: Cache, source: Source) {
    && e.Served? && e.pid == a.pid && e.identity == c.identity && e.source == source
    && e.models == cache.models && e.fetchBegan == cache.began
    && e.age == (if cache.fetchedAt <= c.now then c.now - cache.fetchedAt else 0)
  }

  /** Commits and serves, if the marker is unchanged and all was written; whatever was written holds. */
  ghost predicate Commits(w: World, w': World, a: Action, c: Call, cache: Cache, source: Source)
    requires a.Finish?
  {
    var served := Unchanged(w, c) && a.write.done;
    && w'.disk.marker == (if Unchanged(w, c) && a.write.marker then Some(Marker(c.identity, a.nonce, false)) else w.disk.marker)
    && w'.disk.cache == (if Unchanged(w, c) && a.write.cache then Some(cache) else w.disk.cache)
    && ((exists d :: d in NewEntries(w, w') && d.entry.Served?) <==> served)
    && (forall d | d in NewEntries(w, w') && d.entry.Served? :: Serves(d.entry, a, c, cache, source))
    && ProcessOf(w', a.pid).invalidated
       == ProcessOf(w, a.pid).invalidated - (if served then {c.identity} else {})
  }

  ghost predicate ServesNothing(w: World, w': World) {
    forall d | d in NewEntries(w, w') :: !d.entry.Served?
  }

  lemma AtEntries(clock: nat, entries: seq<Entry>)
    ensures forall d | d in At(clock, entries) :: d.at == clock && d.entry in entries
    ensures forall e | e in entries :: Dated(clock, e) in At(clock, entries)
  {
    forall e | e in entries ensures Dated(clock, e) in At(clock, entries) {
      var i :| 0 <= i < |entries| && entries[i] == e;
      assert At(clock, entries)[i] == Dated(clock, e);
    }
  }

  lemma CommitIs(pid: nat, p: Process, disk: Disk, c: Call, cache: Cache, source: Source, nonce: nat, write: Write)
    ensures
      var o := Commit(pid, p, disk, c, cache, source, nonce, write);
      var same := c.nonce == (if disk.marker.Some? then Some(disk.marker.value.nonce) else None);
      var age := if cache.fetchedAt <= c.now then c.now - cache.fetchedAt else 0;
      && o.disk.marker == (if same && write.marker then Some(Marker(c.identity, nonce, false)) else disk.marker)
      && o.disk.cache == (if same && write.cache then Some(cache) else disk.cache)
      && o.process.invalidated == p.invalidated - (if same && write.done then {c.identity} else {})
      && (forall e | e in o.entries && e.Served? ::
           e == Served(pid, c.identity, cache.models, source, age, cache.began, e.generation))
      && ((exists e :: e in o.entries && e.Served?) <==> same && write.done)
  {
    var o := Commit(pid, p, disk, c, cache, source, nonce, write);
    if NonceOf(disk) == c.nonce && write.done {
      var e := o.entries[|o.entries| - 1];
      assert e in o.entries && e.Served?;
    }
  }

  lemma CommitSteps(ttl: Ttl, w: World, a: Action, cache: Cache, source: Source, before: seq<Entry>)
    requires Enabled(w, a) && a.Finish?
    requires
      var p := ProcessOf(w, a.pid);
      var o := Commit(a.pid, p, w.disk, p.call.value, cache, source, a.nonce, a.write);
      StepOf(ttl, w, a) == o.(entries := before + o.entries)
    requires forall e | e in before :: !e.Served?
    ensures Commits(w, Next(ttl, w, a), a, ProcessOf(w, a.pid).call.value, cache, source)
  {
    var p := ProcessOf(w, a.pid);
    var c, o := p.call.value, Commit(a.pid, p, w.disk, p.call.value, cache, source, a.nonce, a.write);
    CommitIs(a.pid, p, w.disk, c, cache, source, a.nonce, a.write);
    StepLogs(ttl, w, a);
    LogsServed(w, Next(ttl, w, a), before, o.entries);
  }

  lemma LogsServed(w: World, w': World, before: seq<Entry>, entries: seq<Entry>)
    requires NewEntries(w, w') == At(w.clock, before + entries) && forall e | e in before :: !e.Served?
    ensures (exists d :: d in NewEntries(w, w') && d.entry.Served?) <==> (exists e :: e in entries && e.Served?)
    ensures forall d | d in NewEntries(w, w') && d.entry.Served? :: d.entry in entries
  {
    AtEntries(w.clock, before + entries);
    if e :| e in entries && e.Served? {
      assert Dated(w.clock, e) in NewEntries(w, w');
    }
  }

  /** An invalidation bars the identity in its process, writes the marker and removes the cache as far as it gets. */
  lemma InvalidateAnswers(ttl: Ttl, w: World, a: Action)
    requires Enabled(w, a) && a.Invalidate?
    ensures
      var w' := Next(ttl, w, a);
      && ServesNothing(w, w') && a.identity in ProcessOf(w', a.pid).invalidated
      && w'.disk.marker == (if a.write.marker then Some(Marker(a.identity, a.nonce, true)) else w.disk.marker)
      && w'.disk.cache == (if a.write.cache then None else w.disk.cache)
      && !(ProcessOf(w', a.pid).publication.slot.Some?
           && ProcessOf(w', a.pid).publication.slot.value.identity == a.identity)
  {
    StepLogs(ttl, w, a);
    AtEntries(w.clock, StepOf(ttl, w, a).entries);
  }

  /**
    What the upstream's answer leads to. New models are committed and served as live; a confirmation commits the cache
    the call held with a new date and serves it as revalidated; rejected credentials bar the identity; an upstream that
    cannot be reached leaves the held cache to be served as stale, if the marker is unchanged; anything else serves
    nothing.
   */
  lemma FinishAnswers(ttl: Ttl, w: World, a: Action)
    requires Enabled(w, a) && a.Finish?
    ensures
      var w', c := Next(ttl, w, a), ProcessOf(w, a.pid).call.value;
      && ProcessOf(w', a.pid).call.None?
      && match a.answer
         case Fetched(models, etag) => Commits(w, w', a, c, Cache(c.identity, c.now, etag, models, c.began), Live)
         case NotModified =>
           if c.stale.Some? then Commits(w, w', a, c, c.stale.value.(fetchedAt := c.now), RevalidatedCache)
           else w'.disk == w.disk && ServesNothing(w, w')
         case Rejected =>
           && ServesNothing(w, w') && c.identity in ProcessOf(w', a.pid).invalidated
           && w'.disk.marker == (if a.write.marker then Some(Marker(c.identity, a.nonce, true)) else w.disk.marker)
           && w'.disk.cache == (if a.write.cache then None else w.disk.cache)
         case Unavailable =>
           && w'.disk == w.disk
           && ((exists d :: d in NewEntries(w, w') && d.entry.Served?) <==> Unchanged(w, c) && c.stale.Some?)
           && (forall d | d in NewEntries(w, w') && d.entry.Served? :: c.stale.Some? && Serves(d.entry, a, c, c.stale.value, StaleCache))
         case Broken => w'.disk == w.disk && ServesNothing(w, w')
  {
    StepLogs(ttl, w, a);
    AtEntries(w.clock, StepOf(ttl, w, a).entries);
    var c := ProcessOf(w, a.pid).call.value;
    match a.answer
    case Fetched(models, etag) =>
      CommitSteps(ttl, w, a, Cache(c.identity, c.now, etag, models, c.began), Live, [Received(c.identity, models, c.began)]);
    case NotModified =>
      if c.stale.Some? {
        CommitSteps(ttl, w, a, c.stale.value.(fetchedAt := c.now), RevalidatedCache, []);
      }
    case Unavailable =>
      StaleSteps(ttl, w, a);
    case _ =>
  }

  lemma StaleSteps(ttl: Ttl, w: World, a: Action)
    requires Enabled(w, a) && a.Finish? && a.answer.Unavailable?
    ensures
      var w', c := Next(ttl, w, a), ProcessOf(w, a.pid).call.value;
      && ((exists d :: d in NewEntries(w, w') && d.entry.Served?) <==> Unchanged(w, c) && c.stale.Some?)
      && (forall d | d in NewEntries(w, w') && d.entry.Served? :: c.stale.Some? && Serves(d.entry, a, c, c.stale.value, StaleCache))
  {
    StepLogs(ttl, w, a);
    AtEntries(w.clock, StepOf(ttl, w, a).entries);
    var c := ProcessOf(w, a.pid).call.value;
    if Unchanged(w, c) && c.stale.Some? {
      var e := StepOf(ttl, w, a).entries[0];
      assert Dated(w.clock, e) in NewEntries(w, Next(ttl, w, a));
    }
  }

  /** The catalog published by a process: its own again where it is equal, and otherwise the next generation. */
  ghost predicate Publishes(w: World, w': World, d: Dated, pid: nat)
    requires d.entry.Served?
  {
    var before, after, e := ProcessOf(w, pid).publication, ProcessOf(w', pid).publication, d.entry;
    var same := before.slot.Some? && before.slot.value.identity == e.identity && before.slot.value.models == e.models;
    && after.slot == Some(Published(e.identity, e.models, e.generation))
    && (if same then after == before else after.generation == e.generation == before.generation + 1)
  }

  ghost predicate PublishesIn(before: Publication, o: Outcome) {
    forall e | e in o.entries && e.Served? ::
      var same := before.slot.Some? && before.slot.value.identity == e.identity && before.slot.value.models == e.models;
      && o.process.publication.slot == Some(Published(e.identity, e.models, e.generation))
      && (if same then o.process.publication == before
          else o.process.publication.generation == e.generation == before.generation + 1)
  }

  lemma CommitPublishes(pid: nat, p: Process, disk: Disk, c: Call, cache: Cache, source: Source, nonce: nat, write: Write)
    ensures
      var o := Commit(pid, p, disk, c, cache, source, nonce, write);
      PublishesIn(p.publication, o) && ((forall e | e in o.entries :: !e.Served?) ==> o.process.publication == p.publication)
  {
    var o := Commit(pid, p, disk, c, cache, source, nonce, write);
    if NonceOf(disk) == c.nonce && write.done {
      var e := o.entries[|o.entries| - 1];
      assert e in o.entries && e.Served?;
    }
  }

  lemma StepPublishes(ttl: Ttl, w: World, a: Action)
    requires Enabled(w, a)
    ensures
      var o, before := StepOf(ttl, w, a), ProcessOf(w, a.pid).publication;
      && PublishesIn(before, o)
      && (!a.Invalidate? && (forall e | e in o.entries :: !e.Served?) ==> o.process.publication == before)
  {
    var p := ProcessOf(w, a.pid);
    if a.Finish? {
      var c := p.call.value;
      match a.answer
      case Fetched(models, etag) =>
        CommitPublishes(a.pid, p, w.disk, c, Cache(c.identity, c.now, etag, models, c.began), Live, a.nonce, a.write);
      case NotModified =>
        if c.stale.Some? {
          CommitPublishes(a.pid, p, w.disk, c, c.stale.value.(fetchedAt := c.now), RevalidatedCache, a.nonce, a.write);
        }
      case _ =>
    }
  }

  /**
    What is served is published: as it stands if the same models are published for the identity, and otherwise under
    the next generation. Nothing else that is no invalidation changes what a process has published.
   */
  lemma ServingPublishes(ttl: Ttl, w: World, a: Action)
    requires Enabled(w, a)
    ensures
      var w' := Next(ttl, w, a);
      && (forall d | d in NewEntries(w, w') && d.entry.Served? :: Publishes(w, w', d, a.pid))
      && (!a.Invalidate? && ServesNothing(w, w') ==> ProcessOf(w', a.pid).publication == ProcessOf(w, a.pid).publication)
  {
    StepPublishes(ttl, w, a);
    StepLogs(ttl, w, a);
    AtEntries(w.clock, StepOf(ttl, w, a).entries);
    var o := StepOf(ttl, w, a);
    if ServesNothing(w, Next(ttl, w, a)) {
      forall e | e in o.entries ensures !e.Served? {
        assert Dated(w.clock, e) in NewEntries(w, Next(ttl, w, a));
      }
    }
  }

  // ---------- Over whole runs ----------

  /** A call holds a cache of its identity that was not too old when it began. */
  ghost predicate StaleEnough(ttl: Ttl, w: World) {
    forall pid | pid in w.processes && w.processes[pid].call.Some? && w.processes[pid].call.value.stale.Some? ::
      var c := w.processes[pid].call.value;
      c.stale.value.identity == c.identity && c.stale.value.fetchedAt <= c.now <= c.stale.value.fetchedAt + ttl.stale
  }

  lemma StepStaleEnough(ttl: Ttl, w: World, a: Action)
    requires Enabled(w, a) && StaleEnough(ttl, w)
    ensures StaleEnough(ttl, Next(ttl, w, a))
  {
    var w' := Next(ttl, w, a);
    forall pid | pid in w'.processes && w'.processes[pid].call.Some? && w'.processes[pid].call.value.stale.Some?
      ensures
        var c := w'.processes[pid].call.value;
        c.stale.value.identity == c.identity && c.stale.value.fetchedAt <= c.now <= c.stale.value.fetchedAt + ttl.stale
    {
      if pid == a.pid {
        if a.Begin? {
          BeginAnswers(ttl, w, a);
        } else if a.Finish? {
          FinishAnswers(ttl, w, a);
        }
      } else {
        assert pid in w.processes;
      }
    }
  }

  lemma {:induction false} RunsStaleEnough(ttl: Ttl, actions: seq<Action>)
    requires Run(ttl, actions).Some?
    ensures StaleEnough(ttl, Run(ttl, actions).value) && Run(ttl, actions).value.clock == |actions|
  {
    if actions != [] {
      var before := actions[..|actions| - 1];
      RunsStaleEnough(ttl, before);
      StepStaleEnough(ttl, Run(ttl, before).value, actions[|actions| - 1]);
    }
  }

  /** Where an entry came from: the action at its date, in the world before it. */
  ghost predicate CameFrom(ttl: Ttl, actions: seq<Action>, d: Dated) {
    && d.at < |actions| && Run(ttl, actions[..d.at]).Some?
    && var w, a := Run(ttl, actions[..d.at]).value, actions[d.at];
    Enabled(w, a) && d in NewEntries(w, Next(ttl, w, a))
  }

  lemma {:induction false} LogComesFrom(ttl: Ttl, actions: seq<Action>, d: Dated)
    requires Run(ttl, actions).Some? && d in Run(ttl, actions).value.log
    ensures CameFrom(ttl, actions, d)
    decreases |actions|
  {
    if actions != [] {
      var n := |actions| - 1;
      var before, a := actions[..n], actions[n];
      var w := Run(ttl, before).value;
      RunsStaleEnough(ttl, before);
      StepLogs(ttl, w, a);
      AtEntries(w.clock, StepOf(ttl, w, a).entries);
      if d in w.log {
        LogComesFrom(ttl, before, d);
        assert before[..d.at] == actions[..d.at] && before[d.at] == actions[d.at];
      }
    }
  }

  /**
    In every run: a fresh answer comes from a call that was not forced and is no older than the normal limit; a stale
    one from a call whose upstream could not be reached, and is no older than the stale limit; a live one was just
    fetched, and a revalidated one just confirmed.
   */
  lemma RunsServeInTime(ttl: Ttl, actions: seq<Action>, d: Dated)
    requires Run(ttl, actions).Some? && d in Run(ttl, actions).value.log && d.entry.Served?
    ensures d.at < |actions|
    ensures
      var a, e := actions[d.at], d.entry;
      && a.pid == e.pid
      && (match e.source
          case FreshCache => a.Begin? && !a.force && a.identity == e.identity && e.age <= ttl.normal
          case StaleCache => a.Finish? && a.answer.Unavailable? && e.age <= ttl.stale
          case Live => a.Finish? && a.answer.Fetched? && e.models == a.answer.models && a.write.done && e.age == 0
          case RevalidatedCache => a.Finish? && a.answer.NotModified? && a.write.done && e.age == 0)
  {
    LogComesFrom(ttl, actions, d);
    var w, a := Run(ttl, actions[..d.at]).value, actions[d.at];
    RunsStaleEnough(ttl, actions[..d.at]);
    if a.Begin? {
      BeginAnswers(ttl, w, a);
    } else if a.Finish? {
      FinishAnswers(ttl, w, a);
    } else {
      InvalidateAnswers(ttl, w, a);
    }
  }

  /** And an unforced call that meets a cache it may use, fresh enough, is answered from it at once. */
  lemma FreshIsServedAtOnce(ttl: Ttl, actions: seq<Action>, a: Action)
    requires Run(ttl, actions).Some? && Enabled(Run(ttl, actions).value, a) && a.Begin? && !a.force
    requires
      var w := Run(ttl, actions).value;
      MayUse(w, a.pid, a.identity, a.now) && Age(w, a.now) <= ttl.normal
    ensures
      var w := Run(ttl, actions).value;
      && Run(ttl, actions + [a]).Some?
      && var w' := Run(ttl, actions + [a]).value;
      && ProcessOf(w', a.pid).call.None?
      && exists d :: d in w'.log && d.at == |actions| && d.entry.Served? && d.entry.pid == a.pid
                     && d.entry.source == FreshCache && d.entry.models == w.disk.cache.value.models
  {
    var w := Run(ttl, actions).value;
    assert (actions + [a])[..|actions|] == actions;
    RunsStaleEnough(ttl, actions);
    BeginAnswers(ttl, w, a);
    StepLogs(ttl, w, a);
    assert NewEntries(w, Next(ttl, w, a))[0] in Next(ttl, w, a).log;
  }
}
