/**
 The per-instance lock, the one-shot release and the handoff reservation:
 the operations first, on the module's own state.
 */
module InstanceLock {
  import opened Values

  type Instance = string

  const HANDOFF_WINDOW_SECONDS := 90

  type Handoffs = map<Instance, int>  // instance -> monotonic deadline

  predicate Reserved(h: Handoffs, id: Instance, now: int) {
    id in h && now < h[id]
  }

  /** An expired entry is dropped by whoever looks at it. */
  function Swept(h: Handoffs, id: Instance, now: int): Handoffs {
    if id in h && h[id] <= now then h - {id} else h
  }

  datatype Refusal = Handoff | InstanceBusy

  class Locks {
    var locked: set<Instance>
    var handoff: Handoffs

    constructor ()
      ensures locked == {} && handoff == map[]
    {
      locked, handoff := {}, map[];
    }

    /** lock.acquire(blocking=False) */
    method TryAcquire(id: Instance) returns (ok: bool)
      modifies this`locked
      ensures ok <==> id !in old(locked)
      ensures locked == old(locked) + {id}
    {
      ok := id !in locked;
      locked := locked + {id};
    }

    /** lock.release(): a RuntimeError on an unlocked lock. */
    method Release(id: Instance)
      requires id in locked
      modifies this`locked
      ensures locked == old(locked) - {id}
    {
      locked := locked - {id};
    }

    method ReserveHandoff(id: Instance, now: int)
      modifies this`handoff
      ensures handoff == old(handoff)[id := now + HANDOFF_WINDOW_SECONDS]
    {
      handoff := handoff[id := now + HANDOFF_WINDOW_SECONDS];
    }

    method PendingLocked(id: Instance, now: int) returns (pending: bool)
      modifies this`handoff
      ensures pending <==> Reserved(old(handoff), id, now)
      ensures handoff == Swept(old(handoff), id, now)
    {
      if id !in handoff {
        return false;
      }
      if now >= handoff[id] {
        handoff := handoff - {id};
        return false;
      }
      return true;
    }

    method AcquireUnlessHandoff(id: Instance, now: int) returns (r: Option<Refusal>)
      modifies this`locked, this`handoff
      ensures handoff == Swept(old(handoff), id, now)
      ensures r == Some(Handoff) <==> Reserved(old(handoff), id, now)
      ensures r == None <==> !Reserved(old(handoff), id, now) && id !in old(locked)
      ensures locked == if r.None? then old(locked) + {id} else old(locked)
    {
      var pending := PendingLocked(id, now);
      if pending {
        return Some(Handoff);
      }
      var ok := TryAcquire(id);
      if ok {
        return None;
      }
      assert locked == old(locked);
      return Some(InstanceBusy);
    }

    method ClearHandoff(id: Instance)
      modifies this`handoff
      ensures handoff == old(handoff) - {id}
    {
      handoff := handoff - {id};
    }
  }

  /** _release_once: the captured `held` flag of one acquisition. */
  class OneShot {
    const locks: Locks
    const id: Instance
    var held: bool

    constructor (locks: Locks, id: Instance)
      ensures this.locks == locks && this.id == id && held
    {
      this.locks, this.id, held := locks, id, true;
    }

    /** Callable any number of times; only the first one frees the lock. */
    method Release()
      requires held ==> id in locks.locked
      modifies this`held, locks`locked
      ensures !held
      ensures locks.locked == if old(held) then old(locks.locked) - {id} else old(locks.locked)
    {
      if held {
        held := false;
        locks.Release(id);
      }
    }
  }

  /** spawn_backup / spawn_restore: None is BusyError. A thread that fails to start frees the lock again. */
  method SpawnJob(locks: Locks, id: Instance, threadStarts: bool) returns (job: Option<OneShot>)
    modifies locks`locked
    ensures job.Some? <==> id !in old(locks.locked) && threadStarts
    ensures job.Some? ==> fresh(job.value) && job.value.locks == locks && job.value.id == id && job.value.held
    ensures locks.locked == if job.Some? then old(locks.locked) + {id} else old(locks.locked)
  {
    var ok := locks.TryAcquire(id);
    if !ok {
      assert locks.locked == old(locks.locked);
      return None;
    }
    var release := new OneShot(locks, id);
    if !threadStarts {
      release.Release();
      assert locks.locked == old(locks.locked);
      return None;
    }
    return Some(release);
  }

  /** _locked_job around a job that reserves the handoff or not, drops the lock early or not (it raised or
      returned before), and after whose early release another owner may have taken the lock. */
  method LockedJob(release: OneShot, reserve: bool, early: bool, takenSince: bool, now: int)
    requires release.held && release.id in release.locks.locked
    modifies release, release.locks
    ensures !release.held
    ensures release.id in release.locks.locked <==> early && takenSince
    ensures release.locks.locked - {release.id} == old(release.locks.locked) - {release.id}
    ensures release.locks.handoff == if reserve
      then old(release.locks.handoff)[release.id := now + HANDOFF_WINDOW_SECONDS] else old(release.locks.handoff)
  {
    if reserve {
      release.locks.ReserveHandoff(release.id, now);
    }
    if early {
      release.Release();
      if takenSince {
        var _ := release.locks.TryAcquire(release.id);
      }
    }
    release.Release();
  }

  /** _serialize_instance_op around a handler; `busy` is the 409. */
  method SerializeInstanceOp(locks: Locks, id: Instance) returns (busy: bool)
    modifies locks
    ensures busy <==> id in old(locks.locked)
    ensures locks.locked == old(locks.locked)
    ensures locks.handoff == if busy then old(locks.handoff) else old(locks.handoff) - {id}
  {
    var ok := locks.TryAcquire(id);
    if !ok {
      assert locks.locked == old(locks.locked);
      return true;
    }
    locks.ClearHandoff(id);
    locks.Release(id);
    assert locks.locked == old(locks.locked);
    return false;
  }
}
