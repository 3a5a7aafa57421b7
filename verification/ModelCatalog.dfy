/** The model catalog: processes that share one cache file and one epoch marker on disk. */
module ModelCatalog {
  // Each section under the file lock is one step; the network request runs between two such steps, so any step of
  // any process may come in between.

  import opened Wrappers

  datatype Identity = Identity(authEpoch: string, authGeneration: nat, accountHash: string)

  type Models = seq<string>

  /** The epoch marker. Nonces are drawn at random; they are taken never to repeat. */
  datatype Marker = Marker(identity: Identity, nonce: nat, invalidated: bool)

  /** The cache file; `began` records, for the specification only, when the call that fetched the models began. */
  datatype Cache = Cache(identity: Identity, fetchedAt: nat, etag: Option<string>, models: Models, began: nat)

  datatype Disk = Disk(marker: Option<Marker>, cache: Option<Cache>)

  function NonceOf(disk: Disk): Option<nat> {
    match disk.marker case None => None case Some(m) => Some(m.nonce)
  }

  /** A list call between reading the disk and dealing with the upstream's answer. */
  datatype Call = Call(identity: Identity, nonce: Option<nat>, stale: Option<Cache>, now: nat, began: nat)

  datatype Publication = Publication(slot: Option<Published>, generation: nat)

  datatype Published = Published(identity: Identity, models: Models, generation: nat)

  datatype Process = Process(invalidated: set<Identity>, call: Option<Call>, publication: Publication)

  const Started := Process({}, None, Publication(None, 0))

  datatype Ttl = Ttl(normal: nat, stale: nat)

  datatype Source = Live | FreshCache | RevalidatedCache | StaleCache

  datatype Answer =
    | Fetched(models: Models, etag: Option<string>)
    | NotModified
    | Rejected
    | Unavailable
    | Broken

  /** How far a pair of writes got, and whether it was reported done. The marker is always written first. */
  datatype Write = Write(marker: bool, cache: bool, done: bool)

  predicate Legal(w: Write) {
    (w.cache ==> w.marker) && (w.done ==> w.cache)
  }

  // ---------- Under the lock ----------

  /** What a call may reuse of what it read, `now` being its clock. */
  function Usable(p: Process, disk: Disk, identity: Identity, now: nat): Option<Cache> {
    var invalidated :=
      || identity in p.invalidated
      || (disk.marker.Some? && disk.marker.value.identity == identity && disk.marker.value.invalidated);
    if !invalidated && disk.cache.Some? && disk.cache.value.identity == identity && disk.cache.value.fetchedAt <= now
    then disk.cache else None
  }

  function Fresh(ttl: Ttl, usable: Option<Cache>, now: nat, force: bool): bool {
    !force && usable.Some? && now - usable.value.fetchedAt <= ttl.normal
  }

  function Stale(ttl: Ttl, usable: Option<Cache>, now: nat): Option<Cache> {
    if usable.Some? && now - usable.value.fetchedAt <= ttl.stale then usable else None
  }

  /** Writes a new marker, then the cache, as far as the disk lets it. */
  function Written(disk: Disk, marker: Marker, cache: Option<Cache>, w: Write): Disk {
    Disk(if w.marker then Some(marker) else disk.marker, if w.cache then cache else disk.cache)
  }

  function Publish(p: Publication, identity: Identity, models: Models): Publication {
    if p.slot.Some? && p.slot.value.identity == identity && p.slot.value.models == models then p
    else Publication(Some(Published(identity, models, p.generation + 1)), p.generation + 1)
  }

  // ---------- Steps ----------

  datatype Action =
    | Begin(pid: nat, identity: Identity, now: nat, force: bool)
    | Finish(pid: nat, answer: Answer, nonce: nat, write: Write)
    | Invalidate(pid: nat, identity: Identity, nonce: nat, write: Write)

  /** What a step did, for the record. */
  datatype Entry =
    | MarkerWritten
    | Committed(pid: nat, identity: Identity, began: nat)
    | Served(pid: nat, identity: Identity, models: Models, source: Source, age: nat, fetchBegan: nat, generation: nat)
    | Dropped(pid: nat, identity: Identity, persisted: bool)
    | Received(identity: Identity, models: Models, began: nat)

  datatype Dated = Dated(at: nat, entry: Entry)

  datatype World = World(clock: nat, disk: Disk, used: set<nat>, processes: map<nat, Process>, log: seq<Dated>)

  const Initially := World(0, Disk(None, None), {}, map[], [])

  function ProcessOf(w: World, pid: nat): Process {
    if pid in w.processes then w.processes[pid] else Started
  }

  /** The outcome of a step of one process on the disk. */
  datatype Outcome = Outcome(process: Process, disk: Disk, entries: seq<Entry>)

  /** Seconds since the cache was fetched, by a clock that may have been set back. */
  function AgeAt(cache: Cache, now: nat): nat {
    if cache.fetchedAt <= now then now - cache.fetchedAt else 0
  }

  function Serve(p: Process, pid: nat, identity: Identity, cache: Cache, source: Source, now: nat): (Process, Entry) {
    var publication := Publish(p.publication, identity, cache.models);
    (p.(publication := publication, call := None),
     Served(pid, identity, cache.models, source, AgeAt(cache, now), cache.began, publication.slot.value.generation))
  }

  function BeginCall(ttl: Ttl, pid: nat, p: Process, disk: Disk, clock: nat, identity: Identity, now: nat, force: bool): Outcome {
    var usable := Usable(p, disk, identity, now);
    if Fresh(ttl, usable, now, force) then
      var (p', entry) := Serve(p, pid, identity, usable.value, FreshCache, now);
      Outcome(p', disk, [entry])
    else
      Outcome(p.(call := Some(Call(identity, NonceOf(disk), Stale(ttl, usable, now), now, clock))), disk, [])
  }

  /** Commits a cache if the marker is still the one read when the call began, then serves it. */
  function Commit(pid: nat, p: Process, disk: Disk, c: Call, cache: Cache, source: Source, nonce: nat, write: Write): Outcome {
    if NonceOf(disk) != c.nonce then Outcome(p.(call := None), disk, [])
    else
      var disk' := Written(disk, Marker(c.identity, nonce, false), Some(cache), write);
      var wrote := if write.marker then [MarkerWritten] else [];
      var committed := if write.cache then [Committed(pid, c.identity, c.began)] else [];
      if write.done then
        var (p', entry) :=
          Serve(p.(invalidated := p.invalidated - {c.identity}), pid, c.identity, cache, source, c.now);
        Outcome(p', disk', wrote + committed + [entry])
      else Outcome(p.(call := None), disk', wrote + committed)
  }

  function DropIdentity(pid: nat, p: Process, disk: Disk, identity: Identity, nonce: nat, write: Write): Outcome {
    Outcome(p.(invalidated := p.invalidated + {identity}, call := None),
            Written(disk, Marker(identity, nonce, true), None, write),
            (if write.marker then [MarkerWritten] else []) + [Dropped(pid, identity, write.cache)])
  }

  function FinishCall(pid: nat, p: Process, disk: Disk, c: Call, answer: Answer, nonce: nat, write: Write): Outcome {
    match answer
    case Fetched(models, etag) =>
      var o := Commit(pid, p, disk, c, Cache(c.identity, c.now, etag, models, c.began), Live, nonce, write);
      o.(entries := [Received(c.identity, models, c.began)] + o.entries)
    case NotModified =>
      if c.stale.None? then Outcome(p.(call := None), disk, [])
      else Commit(pid, p, disk, c, c.stale.value.(fetchedAt := c.now), RevalidatedCache, nonce, write)
    case Rejected => DropIdentity(pid, p, disk, c.identity, nonce, write)
    case Unavailable =>
      if NonceOf(disk) != c.nonce || c.stale.None? then Outcome(p.(call := None), disk, [])
      else
        var (p', entry) := Serve(p, pid, c.identity, c.stale.value, StaleCache, c.now);
        Outcome(p', disk, [entry])
    case Broken => Outcome(p.(call := None), disk, [])
  }

  function Unpublish(p: Process, identity: Identity): Process {
    if p.publication.slot.Some? && p.publication.slot.value.identity == identity
    then p.(publication := p.publication.(slot := None)) else p
  }

  /** A process runs one call at a time, and nothing is invalidated meanwhile: both hold the process's own locks. */
  predicate Enabled(w: World, a: Action) {
    match a
    case Begin(pid, _, _, _) => ProcessOf(w, pid).call.None?
    case Finish(pid, _, nonce, write) => ProcessOf(w, pid).call.Some? && nonce !in w.used && Legal(write)
    case Invalidate(pid, _, nonce, write) => ProcessOf(w, pid).call.None? && nonce !in w.used && Legal(write)
  }

  function StepOf(ttl: Ttl, w: World, a: Action): Outcome
    requires Enabled(w, a)
  {
    var p := ProcessOf(w, a.pid);
    match a
    case Begin(pid, identity, now, force) => BeginCall(ttl, pid, p, w.disk, w.clock, identity, now, force)
    case Finish(pid, answer, nonce, write) => FinishCall(pid, p, w.disk, p.call.value, answer, nonce, write)
    case Invalidate(pid, identity, nonce, write) =>
      DropIdentity(pid, Unpublish(p, identity), w.disk, identity, nonce, write)
  }

  function At(clock: nat, entries: seq<Entry>): seq<Dated> {
    seq(|entries|, i requires 0 <= i < |entries| => Dated(clock, entries[i]))
  }

  function Next(ttl: Ttl, w: World, a: Action): World
    requires Enabled(w, a)
  {
    var o := StepOf(ttl, w, a);
    World(w.clock + 1, o.disk,
          if a.Begin? then w.used else w.used + {a.nonce},
          w.processes[a.pid := o.process],
          w.log + At(w.clock, o.entries))
  }

  /** Where a sequence of steps, of any processes in any order, leads to, if every step of it can happen. */
  function Run(ttl: Ttl, actions: seq<Action>): Option<World>
    decreases |actions|
  {
    if actions == [] then Some(Initially)
    else
      match Run(ttl, actions[..|actions| - 1])
      case None => None
      case Some(w) =>
        if Enabled(w, actions[|actions| - 1]) then Some(Next(ttl, w, actions[|actions| - 1])) else None
  }

  // ---------- No lost update ----------

  /** Nonces on disk and in calls have been drawn; a call that still has the marker's began after it was written. */
  ghost predicate Sound(w: World) {
    && (w.disk.marker.Some? ==> w.disk.marker.value.nonce in w.used)
    && (forall d | d in w.log :: d.at < w.clock)
    && (forall pid | pid in w.processes && w.processes[pid].call.Some? ::
          var c := w.processes[pid].call.value;
          && c.began < w.clock
          && (c.nonce.Some? ==> c.nonce.value in w.used)
          && (c.nonce == NonceOf(w.disk) ==> forall d | d in w.log && d.entry.MarkerWritten? :: d.at < c.began))
    && (w.disk.marker.None? ==> forall d | d in w.log :: !d.entry.MarkerWritten?)
  }

  /** Between a commit and the beginning of its call no marker was written. */
  ghost predicate NoLostUpdate(log: seq<Dated>) {
    forall i, j | 0 <= i < |log| && 0 <= j < |log| && log[i].entry.Committed? && log[j].entry.MarkerWritten? ::
      log[j].at < log[i].entry.began || log[i].at <= log[j].at
  }

  lemma OutcomeOf(ttl: Ttl, w: World, a: Action)
    requires Enabled(w, a) && Sound(w)
    ensures
      var o := StepOf(ttl, w, a);
      && (o.disk.marker == w.disk.marker
          || (!a.Begin? && o.disk.marker.Some? && o.disk.marker.value.nonce == a.nonce && MarkerWritten in o.entries))
      && (MarkerWritten in o.entries ==> !a.Begin? && o.disk.marker.Some? && o.disk.marker.value.nonce == a.nonce)
      && (o.process.call.Some? ==>
            && a.Begin? && o.process.call.value.began == w.clock && o.process.call.value.nonce == NonceOf(w.disk)
            && o.disk == w.disk && o.entries == [])
      && (forall e | e in o.entries && e.Committed? ::
            var c := ProcessOf(w, a.pid).call;
            a.Finish? && c.Some? && e.began == c.value.began && c.value.nonce == NonceOf(w.disk))
  {
  }

  lemma StepSound(ttl: Ttl, w: World, a: Action)
    requires Enabled(w, a) && Sound(w) && NoLostUpdate(w.log)
    ensures Sound(Next(ttl, w, a)) && NoLostUpdate(Next(ttl, w, a).log)
  {
    OutcomeOf(ttl, w, a);
    SoundLater(w, a, StepOf(ttl, w, a), Next(ttl, w, a));
    LogLater(w, a, StepOf(ttl, w, a).entries);
  }

  lemma LogLater(w: World, a: Action, entries: seq<Entry>)
    requires Sound(w) && NoLostUpdate(w.log)
    requires
      forall e | e in entries && e.Committed? ::
        var c := ProcessOf(w, a.pid).call; c.Some? && e.began == c.value.began && c.value.nonce == NonceOf(w.disk)
    ensures NoLostUpdate(w.log + At(w.clock, entries))
  {
    var log := w.log + At(w.clock, entries);
    forall i, j | 0 <= i < |log| && 0 <= j < |log| && log[i].entry.Committed? && log[j].entry.MarkerWritten?
      ensures log[j].at < log[i].entry.began || log[i].at <= log[j].at
    {
      if i >= |w.log| && j < |w.log| {
        assert log[i].entry in entries && log[j] in w.log;
      } else if i < |w.log| && j >= |w.log| {
        assert log[i] in w.log;
      }
    }
  }

  lemma SoundLater(w: World, a: Action, o: Outcome, w': World)
    requires Sound(w)
    requires o.disk.marker == w.disk.marker
          || (!a.Begin? && o.disk.marker.Some? && o.disk.marker.value.nonce == a.nonce && MarkerWritten in o.entries)
    requires MarkerWritten in o.entries ==> !a.Begin? && o.disk.marker.Some? && o.disk.marker.value.nonce == a.nonce
    requires !a.Begin? ==> a.nonce !in w.used
    requires o.process.call.Some? ==>
      && o.process.call.value.began == w.clock && o.process.call.value.nonce == NonceOf(w.disk)
      && o.disk == w.disk && o.entries == []
    requires w' == World(w.clock + 1, o.disk, if a.Begin? then w.used else w.used + {a.nonce},
                         w.processes[a.pid := o.process], w.log + At(w.clock, o.entries))
    ensures Sound(w')
  {
    forall d | d in w'.log ensures d in w.log || (d.at == w.clock && d.entry in o.entries) {
    }
    forall pid | pid in w'.processes && w'.processes[pid].call.Some?
      ensures
        var c := w'.processes[pid].call.value;
        && c.began < w'.clock
        && (c.nonce.Some? ==> c.nonce.value in w'.used)
        && (c.nonce == NonceOf(w'.disk) ==> forall d | d in w'.log && d.entry.MarkerWritten? :: d.at < c.began)
    {
      if pid != a.pid {
        assert pid in w.processes && w.processes[pid].call.Some?;
      }
    }
  }

  /** Every commit wrote a marker in the same step, after its call began. */
  ghost predicate CommitsMark(log: seq<Dated>) {
    forall d | d in log && d.entry.Committed? :: d.entry.began < d.at && Dated(d.at, MarkerWritten) in log
  }

  lemma StepMarks(ttl: Ttl, w: World, a: Action)
    requires Enabled(w, a) && Sound(w) && CommitsMark(w.log)
    ensures CommitsMark(Next(ttl, w, a).log)
  {
    OutcomeOf(ttl, w, a);
    var o := StepOf(ttl, w, a);
    var w' := Next(ttl, w, a);
    forall d | d in w'.log && d.entry.Committed?
      ensures d.entry.began < d.at && Dated(d.at, MarkerWritten) in w'.log
    {
      if d !in w.log {
        assert d.at == w.clock && d.entry in o.entries;
        CommitWrites(ttl, w, a, d.entry);
        var k :| 0 <= k < |o.entries| && o.entries[k] == MarkerWritten;
        assert At(w.clock, o.entries)[k] == Dated(w.clock, MarkerWritten);
      }
    }
  }

  lemma CommitWrites(ttl: Ttl, w: World, a: Action, e: Entry)
    requires Enabled(w, a) && Sound(w) && e.Committed? && e in StepOf(ttl, w, a).entries
    ensures MarkerWritten in StepOf(ttl, w, a).entries && e.began < w.clock
  {
    var c := ProcessOf(w, a.pid).call.value;
    assert e.began == c.began;
  }

  /** In every interleaving, a commit happens only if nothing was committed or invalidated since its call began. */
  lemma {:induction false} RunsLoseNoUpdate(ttl: Ttl, actions: seq<Action>)
    requires Run(ttl, actions).Some?
    ensures var w := Run(ttl, actions).value; Sound(w) && NoLostUpdate(w.log) && CommitsMark(w.log)
    decreases |actions|
  {
    if actions != [] {
      var before, a := Run(ttl, actions[..|actions| - 1]).value, actions[|actions| - 1];
      RunsLoseNoUpdate(ttl, actions[..|actions| - 1]);
      StepSound(ttl, before, a);
      StepMarks(ttl, before, a);
    }
  }

  /** Successful refreshes never overlap: the later one's call began after the earlier one was committed. */
  lemma RefreshesDoNotOverlap(ttl: Ttl, actions: seq<Action>, i: nat, j: nat)
    requires Run(ttl, actions).Some?
    requires
      var log := Run(ttl, actions).value.log;
      i < |log| && j < |log| && log[i].entry.Committed? && log[j].entry.Committed? && log[i].at < log[j].at
    ensures var log := Run(ttl, actions).value.log; log[i].at < log[j].entry.began
  {
    RunsLoseNoUpdate(ttl, actions);
    var log := Run(ttl, actions).value.log;
    assert log[i] in log;
    var k :| 0 <= k < |log| && log[k] == Dated(log[i].at, MarkerWritten);
  }
}
