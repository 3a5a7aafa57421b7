/** The catalog of one process as the object that updates its fields and the shared files in place. */
module CatalogObject {
  import opened Wrappers
  import opened ModelCatalog

  /** The two files under the lock. A write may stop half-way, or be reported failed though it was done. */
  class SharedFiles {
    var marker: Option<Marker>
    var cache: Option<Cache>

    constructor ()
      ensures View() == Disk(None, None)
    {
      marker, cache := None, None;
    }

    function View(): Disk
      reads this
    {
      Disk(marker, cache)
    }

    method CommitEpoch(next: Marker, write: Write) returns (ok: bool)
      requires Legal(write)
      modifies this`marker
      ensures marker == (if write.marker then Some(next) else old(marker)) && (ok <==> write.cache)
    {
      if write.marker {
        marker := Some(next);
      }
      ok := write.cache;
    }

    method ReplaceCache(next: Option<Cache>, write: Write) returns (ok: bool)
      requires Legal(write)
      modifies this`cache
      ensures cache == (if write.cache then next else old(cache)) && (ok <==> write.done)
    {
      if write.cache {
        cache := next;
      }
      ok := write.done;
    }
  }

  datatype Snapshot = Snapshot(models: Models, source: Source, age: nat, fetchBegan: nat, generation: nat)

  function SlotOf(published: Option<(Identity, Snapshot)>): Option<Published> {
    match published
    case None => None
    case Some((identity, snapshot)) => Some(Published(identity, snapshot.models, snapshot.generation))
  }

  predicate IsPublished(published: Option<(Identity, Snapshot)>, identity: Identity, models: Models) {
    published.Some? && published.value.0 == identity && published.value.1.models == models
  }

  /** The snapshot returned for models that were served: the one published earlier, if it holds the same models. */
  predicate Answers(before: Option<(Identity, Snapshot)>, snapshot: Snapshot, e: Entry) {
    && e.Served? && snapshot.models == e.models && snapshot.generation == e.generation
    && snapshot ==
         (if IsPublished(before, e.identity, e.models) then before.value.1
          else Snapshot(e.models, e.source, e.age, e.fetchBegan, e.generation))
  }

  class CodexModelCatalog {
    const files: SharedFiles
    const ttl: Ttl
    var invalidated: set<Identity>
    var published: Option<(Identity, Snapshot)>
    var publishedGeneration: nat

    constructor (files: SharedFiles, ttl: Ttl)
      ensures this.files == files && this.ttl == ttl && View(None) == Started
    {
      this.files, this.ttl := files, ttl;
      invalidated, published, publishedGeneration := {}, None, 0;
    }

    ghost function View(call: Option<Call>): Process
      reads this
    {
      Process(invalidated, call, Publication(SlotOf(published), publishedGeneration))
    }

    method PublishCandidate(identity: Identity, candidate: Snapshot) returns (snapshot: Snapshot)
      modifies this`published, this`publishedGeneration
      ensures Publication(SlotOf(published), publishedGeneration)
           == Publish(Publication(SlotOf(old(published)), old(publishedGeneration)), identity, candidate.models)
      ensures published == Some((identity, snapshot))
      ensures snapshot ==
        (if IsPublished(old(published), identity, candidate.models) then old(published).value.1
         else candidate.(generation := old(publishedGeneration) + 1))
    {
      if published.Some? && published.value.0 == identity && published.value.1.models == candidate.models {
        return published.value.1;
      }
      publishedGeneration := publishedGeneration + 1;
      snapshot := candidate.(generation := publishedGeneration);
      published := Some((identity, snapshot));
    }

    /**
      Reads marker and cache under the lock; either answers at once or leaves a call for the network. The step
      count `clock` is kept in the call for the specification only.
     */
    method BeginList(pid: nat, identity: Identity, now: nat, force: bool, clock: nat)
      returns (call: Option<Call>, snapshot: Option<Snapshot>, ghost entries: seq<Entry>)
      modifies this
      ensures BeginCall(ttl, pid, old(View(None)), files.View(), clock, identity, now, force)
           == Outcome(View(call), files.View(), entries)
      ensures snapshot.Some? <==> call.None?
      ensures snapshot.Some? ==> |entries| == 1 && Answers(old(published), snapshot.value, entries[0])
    {
      var disk := files.View();
      var dropped :=
        identity in invalidated
        || (disk.marker.Some? && disk.marker.value.identity == identity && disk.marker.value.invalidated);
      var cached: Option<Cache> := None;
      if !dropped && disk.cache.Some? && disk.cache.value.identity == identity && disk.cache.value.fetchedAt <= now {
        cached := disk.cache;
      }
      if !force && cached.Some? && now - cached.value.fetchedAt <= ttl.normal {
        var candidate :=
          Snapshot(cached.value.models, FreshCache, now - cached.value.fetchedAt, cached.value.began, 0);
        var sent := PublishCandidate(identity, candidate);
        call, snapshot := None, Some(sent);
        entries := [Served(pid, identity, candidate.models, FreshCache, candidate.age, candidate.fetchBegan, sent.generation)];
      } else {
        var stale := if cached.Some? && now - cached.value.fetchedAt <= ttl.stale then cached else None;
        call, snapshot, entries := Some(Call(identity, NonceOf(disk), stale, now, clock)), None, [];
      }
    }

    method CommitCacheIfCurrent(c: Call, cache: Cache, nonce: nat, write: Write) returns (ok: bool)
      requires Legal(write)
      modifies files
      ensures files.View() ==
        (if NonceOf(old(files.View())) == c.nonce
         then Written(old(files.View()), Marker(c.identity, nonce, false), Some(cache), write) else old(files.View()))
      ensures ok <==> NonceOf(old(files.View())) == c.nonce && write.done
    {
      ok := false;
      if NonceOf(files.View()) != c.nonce {
        return;
      }
      var marked := files.CommitEpoch(Marker(c.identity, nonce, false), write);
      if marked {
        ok := files.ReplaceCache(Some(cache), write);
      }
    }

    method PersistInvalidation(identity: Identity, nonce: nat, write: Write)
      requires Legal(write)
      modifies files
      ensures files.View() == Written(old(files.View()), Marker(identity, nonce, true), None, write)
    {
      var marked := files.CommitEpoch(Marker(identity, nonce, true), write);
      if marked {
        var _ := files.ReplaceCache(None, write);
      }
    }

    /** Deals with the upstream's answer. */
    method FinishList(pid: nat, c: Call, answer: Answer, nonce: nat, write: Write)
      returns (snapshot: Option<Snapshot>)
      requires Legal(write)
      modifies this, files
      ensures
        var o := FinishCall(pid, old(View(Some(c))), old(files.View()), c, answer, nonce, write);
        && o.process == View(None) && o.disk == files.View()
        && (snapshot.Some? <==> exists e :: e in o.entries && e.Served?)
        && (snapshot.Some? ==> exists e :: e in o.entries && Answers(old(published), snapshot.value, e))
    {
      snapshot := None;
      match answer {
        case Fetched(models, etag) =>
          var cache := Cache(c.identity, c.now, etag, models, c.began);
          snapshot := CommitAndPublish(pid, c, cache, Live, nonce, write);
        case NotModified =>
          if c.stale.Some? {
            var cache := c.stale.value.(fetchedAt := c.now);
            snapshot := CommitAndPublish(pid, c, cache, RevalidatedCache, nonce, write);
          }
        case Rejected =>
          invalidated := invalidated + {c.identity};
          PersistInvalidation(c.identity, nonce, write);
        case Unavailable =>
          if NonceOf(files.View()) == c.nonce && c.stale.Some? {
            var old' := c.stale.value;
            var age := if old'.fetchedAt <= c.now then c.now - old'.fetchedAt else 0;
            var sent := PublishCandidate(c.identity, Snapshot(old'.models, StaleCache, age, old'.began, 0));
            snapshot := Some(sent);
            ghost var o := FinishCall(pid, old(View(Some(c))), old(files.View()), c, answer, nonce, write);
            assert Answers(old(published), sent, o.entries[0]);
          }
        case Broken =>
      }
    }

    method CommitAndPublish(pid: nat, c: Call, cache: Cache, source: Source, nonce: nat, write: Write)
      returns (snapshot: Option<Snapshot>)
      requires Legal(write)
      modifies this, files
      ensures
        var o := Commit(pid, old(View(Some(c))), old(files.View()), c, cache, source, nonce, write);
        && o.process == View(None) && o.disk == files.View()
        && (snapshot.Some? <==> exists e :: e in o.entries && e.Served?)
        && (snapshot.Some? ==> exists e :: e in o.entries && Answers(old(published), snapshot.value, e))
    {
      snapshot := None;
      ghost var o := Commit(pid, View(Some(c)), files.View(), c, cache, source, nonce, write);
      var committed := CommitCacheIfCurrent(c, cache, nonce, write);
      if committed {
        invalidated := invalidated - {c.identity};
        var age := if cache.fetchedAt <= c.now then c.now - cache.fetchedAt else 0;
        var sent := PublishCandidate(c.identity, Snapshot(cache.models, source, age, cache.began, 0));
        snapshot := Some(sent);
        assert Answers(old(published), sent, o.entries[|o.entries| - 1]);
      }
    }

    method InvalidateIdentity(pid: nat, identity: Identity, nonce: nat, write: Write)
      requires Legal(write)
      modifies this, files
      ensures
        var o := DropIdentity(pid, Unpublish(old(View(None)), identity), old(files.View()), identity, nonce, write);
        o.process == View(None) && o.disk == files.View()
    {
      if published.Some? && published.value.0 == identity {
        published := None;
      }
      invalidated := invalidated + {identity};
      PersistInvalidation(identity, nonce, write);
    }
  }
}
