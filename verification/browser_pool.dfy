/**
 * `BrowserPool`: a bounded pool of browsers with a queue of idle ones, a set
 * of active ones and a shutdown flag.
 *
 * A browser is known by its identity (`id(ctx)`), here a number handed out
 * when it is created. Launching and quitting a browser are left to the
 * caller; the pool records which browsers it destroyed. The health probe
 * on release is an input. The lock is not modelled: calls run one at a time.
 */
module BrowserPools {

  const ShuttingDownMessage := "BrowserPool is shutting down"

  /** What `get_browser` does. */
  datatype Acquire =
    | Reused(id: nat)        // an idle browser was taken from the queue
    | Created(id: nat)       // a new browser was launched
    | Exhausted              // the pool is full: the caller waits for a release
    | ShuttingDown           // raised: the pool was cleaned up

  predicate Distinct(s: seq<nat>) {
    forall i, j :: 0 <= i < j < |s| ==> s[i] != s[j]
  }

  class BrowserPool {
    const maxBrowsers: nat
    var idle: seq<nat>
    var active: set<nat>
    var shutdown: bool
    var nextId: nat
    var destroyed: seq<nat>

    /**
     * The pool's invariant: never more browsers than the cap, a browser is
     * idle or active but not both, queued at most once, and known.
     */
    ghost predicate Valid()
      reads this
    {
      && |active| + |idle| <= maxBrowsers
      && Distinct(idle)
      && (forall id :: id in idle ==> id !in active && id < nextId)
      && (forall id :: id in active ==> id < nextId)
    }

    /** `BrowserPool(maxsize)`. */
    constructor (maxsize: nat)
      ensures Valid()
      ensures maxBrowsers == maxsize && idle == [] && active == {} && !shutdown && destroyed == []
    {
      maxBrowsers := maxsize;
      idle := [];
      active := {};
      shutdown := false;
      nextId := 0;
      destroyed := [];
    }

    /**
     * `get_browser`: raises once shut down; takes the oldest idle browser
     * when there is one; creates one only when none is idle and fewer than
     * `max_browsers` are active; otherwise waits.
     */
    method GetBrowser() returns (r: Acquire)
      requires Valid()
      modifies this
      ensures Valid()
      ensures shutdown == old(shutdown) && destroyed == old(destroyed)
      ensures old(shutdown) ==> r == ShuttingDown && idle == old(idle) && active == old(active) && nextId == old(nextId)
      ensures !old(shutdown) && old(idle) != [] ==>
                r == Reused(old(idle)[0]) && idle == old(idle)[1..] && active == old(active) + {old(idle)[0]}
                && nextId == old(nextId)
      ensures !old(shutdown) && old(idle) == [] && |old(active)| < maxBrowsers ==>
                r == Created(old(nextId)) && old(nextId) !in old(active)
                && idle == [] && active == old(active) + {old(nextId)} && nextId == old(nextId) + 1
      ensures !old(shutdown) && old(idle) == [] && |old(active)| >= maxBrowsers ==>
                r == Exhausted && idle == old(idle) && active == old(active) && nextId == old(nextId)
    {
      if shutdown {
        return ShuttingDown;
      }
      if idle != [] {
        var id := idle[0];
        assert forall x :: x in idle[1..] ==> x in idle && x != id;
        idle := idle[1..];
        active := active + {id};
        return Reused(id);
      }
      if |active| < maxBrowsers {
        var id := nextId;
        nextId := nextId + 1;
        active := active + {id};
        return Created(id);
      }
      return Exhausted;
    }

    /**
     * `release_browser`: an unknown browser changes nothing; an active one
     * leaves the active set and is queued idle when its health probe
     * answers, destroyed otherwise.
     */
    method ReleaseBrowser(id: nat, healthy: bool)
      requires Valid()
      modifies this
      ensures Valid()
      ensures shutdown == old(shutdown) && nextId == old(nextId)
      ensures id !in old(active) ==> idle == old(idle) && active == old(active) && destroyed == old(destroyed)
      ensures id in old(active) ==> active == old(active) - {id}
      ensures id in old(active) && healthy ==> idle == old(idle) + [id] && destroyed == old(destroyed)
      ensures id in old(active) && !healthy ==> idle == old(idle) && destroyed == old(destroyed) + [id]
    {
      if id !in active {
        return;
      }
      active := active - {id};
      if healthy {
        idle := idle + [id];
      } else {
        destroyed := destroyed + [id];
      }
    }

    /**
     * `cleanup`: sets the shutdown flag, destroys every idle browser in
     * queue order and forgets the active ones; every later `get_browser`
     * raises.
     */
    method Cleanup()
      requires Valid()
      modifies this
      ensures Valid()
      ensures shutdown && idle == [] && active == {}
      ensures destroyed == old(destroyed) + old(idle)
      ensures nextId == old(nextId)
    {
      shutdown := true;
      while idle != []
        invariant Valid()
        invariant destroyed + idle == old(destroyed) + old(idle)
        invariant nextId == old(nextId) && shutdown
        decreases |idle|
      {
        var id := idle[0];
        assert idle == [id] + idle[1..];
        idle := idle[1..];
        destroyed := destroyed + [id];
      }
      active := {};
    }
  }
}
