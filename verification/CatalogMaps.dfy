/**
 The maps behind the catalogs, changed in place one lock region at a time. `View(id)` is the shared
 state of `ModelCatalog` for one provider id; every method is one of that machine's operations on the
 id it names and leaves the other ids as they were. A waiter's index stands for the shared object.
 */
module CatalogMaps {
  import opened Basics
  import opened ModelCatalog

  class Catalogs {
    var generations: map<string, U64>
    var cache: map<string, Cached>
    var inflight: map<string, nat>
    var waiters: seq<Waiter>
    ghost var epochs: map<string, nat>

    constructor ()
      ensures forall id :: View(id) == Shared(0, 0, None, None, [])
    {
      generations, cache, inflight, waiters, epochs := map[], map[], map[], [], map[];
    }

    ghost function View(id: string): Shared
      reads this
    {
      Shared(
        if id in generations then generations[id] else 0,
        if id in epochs then epochs[id] else 0,
        if id in cache then Some(cache[id]) else None,
        if id in inflight then Some(inflight[id]) else None,
        waiters)
    }

    /** Nothing but the pool of waiters differs for any other id. */
    twostate predicate OthersKept(id: string)
      reads this
    {
      forall other :: other != id ==> View(other) == old(View(other)).(waiters := waiters)
    }

    method Fingerprinted(id: string, digest: string) returns (fp: Fingerprint)
      ensures fp == View(id).Key(digest)
    {
      fp := Fingerprint(if id in generations then generations[id] else 0, digest);
    }

    method CachedModels(id: string, fp: Fingerprint) returns (hit: Option<Fill>)
      ensures hit == View(id).Lookup(fp)
    {
      hit := None;
      if id in cache {
        var found := cache[id];
        if found.fingerprint == fp && found.fill.complete {
          hit := Some(found.fill);
        }
      }
    }

    method ClaimModelsWaiter(id: string, fp: Fingerprint, reader: nat) returns (leader: bool, waiter: nat)
      modifies this
      ensures leader <==> !old(View(id)).Joinable(fp)
      ensures !leader ==> old(View(id)).inflight == Some(waiter) && View(id) == old(View(id))
      ensures leader ==> waiter == |old(waiters)| && View(id) == old(View(id)).Lead(fp, reader)
      ensures OthersKept(id)
    {
      if id in inflight && inflight[id] < |waiters| {
        var existing := waiters[inflight[id]];
        if existing.fingerprint == fp && existing.pending {
          return false, inflight[id];
        }
      }
      leader, waiter := true, |waiters|;
      waiters := waiters + [Waiter(fp, reader, true, None)];
      inflight := inflight[id := waiter];
    }

    /**
     A call that runs without interruption: a complete catalog is found again by the next call with the
     same fingerprint, an incomplete one is not kept, whoever joined is served what was found, and no
     flight is left behind. No answer: the caller waits for the leader it joined.
     */
    method EnsureModelsCached(id: string, digest: string, reader: nat, probe: Fill) returns (answer: Option<Fill>)
      modifies this
      ensures OthersKept(id) && View(id).Key(digest) == old(View(id)).Key(digest)
      ensures var was, key := old(View(id)), old(View(id)).Key(digest);
              if was.Lookup(key).Some? then answer == was.Lookup(key) && View(id) == was
              else if was.Joinable(key) then answer.None? && View(id) == was
              else
                && answer == Some(probe) && View(id).inflight.None?
                && |waiters| == |old(waiters)| + 1 && waiters[|old(waiters)|].state == Some(probe)
                && View(id).Lookup(key) == if probe.complete then Some(probe) else None
    {
      var fp := Fingerprinted(id, digest);
      answer := CachedModels(id, fp);
      if answer.Some? {
        return;
      }
      var leader, waiter := ClaimModelsWaiter(id, fp, reader);
      if !leader {
        return None;
      }
      PublishModelsWaiter(waiter, probe);
      StoreFill(id, fp, probe);
      DropInflightIf(id, fp);
      return Some(probe);
    }

    /** Publishing is two steps: the flag, then the state under the waiter's own lock. */
    method ClearPending(w: nat)
      modifies this`waiters
      ensures forall id :: View(id) == old(View(id)).ClearPending(w)
    {
      if w < |waiters| {
        waiters := waiters[w := waiters[w].(pending := false)];
      }
    }

    method SetReady(w: nat, fill: Fill)
      modifies this`waiters
      ensures forall id :: View(id) == old(View(id)).Publish(w, fill)
    {
      if w < |waiters| {
        waiters := waiters[w := waiters[w].(state := Some(fill))];
      }
    }

    method PublishModelsWaiter(w: nat, fill: Fill)
      modifies this`waiters
      ensures forall id :: View(id) == old(View(id)).ClearPending(w).Publish(w, fill)
    {
      ClearPending(w);
      SetReady(w, fill);
    }

    method StoreFill(id: string, fp: Fingerprint, fill: Fill)
      modifies this`cache
      ensures View(id) == old(View(id)).Insert(fp, fill)
      ensures OthersKept(id)
    {
      if fill.complete {
        cache := cache[id := Cached(fp, fill)];
      }
    }

    method DropInflightIf(id: string, fp: Fingerprint)
      modifies this`inflight
      ensures View(id) == old(View(id)).DropInflightIf(fp)
      ensures OthersKept(id)
    {
      if id in inflight && inflight[id] < |waiters| && waiters[inflight[id]].fingerprint == fp {
        inflight := inflight - {id};
      }
    }

    /** The generation saturates; below that it is the machine's. */
    method RaiseGeneration(id: string)
      modifies this`generations, this`epochs
      ensures old(View(id)).generation < U64_MAX ==> View(id) == old(View(id)).Bump()
      ensures old(View(id)).generation == U64_MAX ==> View(id) == old(View(id)).Bump().(generation := U64_MAX)
      ensures OthersKept(id)
    {
      var slot := if id in generations then generations[id] else 0;
      generations := generations[id := SatAdd(slot, 1)];
      epochs := epochs[id := (if id in epochs then epochs[id] else 0) + 1];
    }

    method ClearCache(id: string)
      modifies this`cache
      ensures View(id) == old(View(id)).Forget()
      ensures OthersKept(id)
    {
      cache := cache - {id};
    }

    /** Uninterrupted, an invalidation leaves nothing to find and nothing to join: no cached catalog, no
        waiter still pending in the slot, and the fingerprint that was current until now is so no more. */
    method InvalidateModels(id: string)
      modifies this
      ensures View(id).cache.None? && OthersKept(id)
      ensures View(id).inflight == old(View(id)).inflight && |waiters| == |old(waiters)|
      ensures old(View(id)).generation < U64_MAX ==>
                forall digest :: !View(id).Fresh(old(View(id)).Key(digest), digest)
      ensures forall fp :: !View(id).Joinable(fp)
      ensures forall w :: 0 <= w < |waiters| && old(View(id)).inflight != Some(w) ==> waiters[w] == old(waiters)[w]
    {
      RaiseGeneration(id);
      ClearCache(id);
      if id in inflight {
        PublishModelsWaiter(inflight[id], EMPTY);
      }
    }

    method DropModelsGeneration(id: string)
      modifies this
      ensures View(id).generation == 0 && View(id).cache.None? && OthersKept(id)
      ensures forall fp :: !View(id).Joinable(fp)
    {
      InvalidateModels(id);
      ghost var invalid := View(id);
      generations := generations - {id};
      forall fp ensures !View(id).Joinable(fp) {
        assert !invalid.Joinable(fp);
      }
    }
  }
}
