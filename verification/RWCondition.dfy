// The condition object: a lock object and a queue of waiter objects.  `wait` is split where
// the source sleeps or gives the mutex away; each piece is proved against the condition
// step of the same name.
module RWConditionObject {
  import opened WaitQueues
  import C = Condition
  import opened LockModel
  import opened Invariant
  import opened Schedules
  import opened WaitSteps
  import opened RWLockObject

  class RWCondition {
    const lock: RWLock
    const queue: WakeQueue
    // Where the callers are inside `wait`, and what the clients have done to the predicate.
    ghost var phases: map<ThreadId, C.Phase>
    ghost var truth: bool
    ghost var owed: bool

    ghost function Repr(): set<object> {
      {this, queue} + lock.Repr()
    }

    ghost function Snapshot(): C.Cond
      reads Repr()
    {
      C.Cond(lock.Snapshot(), queue.View(), phases, truth, owed)
    }

    ghost predicate Valid()
      reads Repr()
    {
      lock.Valid() && queue !in lock.Repr() && C.CondInv(Snapshot())
    }

    constructor (cfg: Config)
      ensures Valid() && fresh(Repr())
      ensures Snapshot() == C.Cond(Init(cfg), Room([], map[]), map[], false, false)
    {
      lock := new RWLock(cfg);
      queue := new WakeQueue();
      phases, truth, owed := map[], false, false;
    }

    method IsOwned(t: ThreadId, mode: Side) returns (b: bool)
      ensures b == C.IsOwned(lock.Snapshot(), t, mode)
    {
      match mode
      case Read => b := lock.IsCurrentReader(t);
      case Write => b := lock.IsCurrentWriter(t);
    }

    method GetOwnedLockDepth(t: ThreadId) returns (depth: int)
      ensures depth == C.OwnedDepth(lock.Snapshot(), t)
    {
      depth := if t in lock.readerOwners then lock.readerOwners[t] else 0;
      var writer := lock.IsCurrentWriter(t);
      if writer {
        depth := depth + if lock.cfg.reentrant then lock.writeCount else 1;
      }
    }

    // ---- notify ----

    // False where the source raises because the lock is not owned.
    method Notify(t: ThreadId, mode: Side, n: int) returns (ok: bool)
      requires Valid() && C.Outside(Snapshot(), t)
      modifies queue
      ensures Valid()
      ensures ok == old(C.May(Snapshot(), C.CondEvent.Notify(t, mode, n)))
      ensures Snapshot() == if ok then old(C.Step(Snapshot(), C.CondEvent.Notify(t, mode, n))) else old(Snapshot())
      ensures ok ==> FifoWake(old(queue.View()), if n < 0 then 0 else n, queue.View())
    {
      hide FifoWake;
      ok := IsOwned(t, mode);
      if ok {
        C.NotifyKeeps(Snapshot(), C.CondEvent.Notify(t, mode, n));
        queue.NotifyUnlocked(n);
      }
    }

    method NotifyAll(t: ThreadId, mode: Side) returns (ok: bool)
      requires Valid() && C.Outside(Snapshot(), t)
      modifies queue, this`owed
      ensures Valid()
      ensures ok == old(C.May(Snapshot(), C.CondEvent.NotifyAll(t, mode)))
      ensures Snapshot() == if ok then old(C.Step(Snapshot(), C.CondEvent.NotifyAll(t, mode))) else old(Snapshot())
      ensures ok ==> NoneParked(queue.View())
    {
      ok := IsOwned(t, mode);
      if ok {
        C.NotifyKeeps(Snapshot(), C.CondEvent.NotifyAll(t, mode));
        queue.NotifyAllUnlocked();
        owed := false;
      }
    }

    // ---- The callers' side ----

    // Any step of the lock outside of `wait`, or of a caller on its way back.
    method LockStep(e: Event) returns (out: Outcome)
      requires Valid() && C.May(Snapshot(), C.CondEvent.Lock(e))
      modifies lock.Repr()
      ensures Valid() && Snapshot() == old(C.Step(Snapshot(), C.CondEvent.Lock(e)))
      ensures out == old(Exec(lock.Snapshot(), e)).1
    {
      hide C.CondInv, Inv, Exec;
      C.CondParts(Snapshot());
      C.LockKeeps(Snapshot(), e);
      out := lock.Perform(e);
    }

    ghost method SetTruth(t: ThreadId, b: bool)
      requires Valid() && C.May(Snapshot(), C.CondEvent.SetTruth(t, b))
      modifies this`truth, this`owed
      ensures Valid() && Snapshot() == old(C.Step(Snapshot(), C.CondEvent.SetTruth(t, b)))
    {
      C.SetTruthKeeps(Snapshot(), t, b);
      truth, owed := b, b && (owed || !truth);
    }

    ghost method Call(t: ThreadId, mode: Side, checked: bool)
      requires Valid() && C.May(Snapshot(), C.CondEvent.Call(t, mode, checked))
      modifies this`phases
      ensures Valid() && Snapshot() == old(C.Step(Snapshot(), C.CondEvent.Call(t, mode, checked)))
    {
      C.CallKeeps(Snapshot(), t, mode, checked);
      phases := phases[t := C.Calling(mode, checked)];
    }

    // ---- wait ----

    // `_add_waiter`: a fresh unsignalled waiter at the end of the queue.
    method AddWaiter(t: ThreadId)
      requires RoomOK(queue.View()) && t !in queue.slots
      modifies queue
      ensures queue.View() == Room(old(queue.waiters) + [t], old(queue.slots)[t := Waiter(0, Parked)])
      ensures RoomOK(queue.View())
    {
      queue.Enter(t, 0);
      queue.Wait(t);
    }

    // The ownership checks and the registration; false where the source raises.
    method Register(t: ThreadId, mode: Side) returns (ok: bool)
      requires Valid() && C.May(Snapshot(), C.CondEvent.Register(t)) && phases[t].mode == mode
      modifies queue, this`phases
      ensures Valid() && Snapshot() == old(C.Step(Snapshot(), C.CondEvent.Register(t)))
      ensures ok <==> old(C.StandingOf(lock.Snapshot(), t)) == C.OneHold(mode)
      ensures if ok then queue.waiters == old(queue.waiters) + [t] && IsParked(queue.View(), t)
              else queue.View() == old(queue.View())
    {
      hide C.CondInv, Inv, RoomOK, C.StandingOf, C.IsOwned, C.OwnedDepth;
      C.CondParts(Snapshot());
      C.RegisterKeeps(Snapshot(), t);
      C.WaitNeedsOneHold(Snapshot(), t);
      var owned := IsOwned(t, mode);
      var depth := GetOwnedLockDepth(t);
      if !owned || depth != 1 {
        phases := phases - {t};
        return false;
      }
      phases := phases[t := C.Registered(mode, phases[t].checked)];
      AddWaiter(t);
      return true;
    }

    // `self.release()`; if it raises, the waiter is taken back out.
    method ReleaseOrRemove(t: ThreadId, mode: Side) returns (ok: bool)
      requires lock.Valid() && Inv(lock.Snapshot()) && Free(lock.Snapshot(), t)
      requires queue !in lock.Repr() && RoomOK(queue.View())
      modifies lock.Repr(), queue
      ensures lock.Valid() && (lock.Snapshot(), ok) == old(ReleaseSide(lock.Snapshot(), t, mode))
      ensures queue.View() == if ok then old(queue.View()) else old(C.Remove(queue.View(), t))
    {
      hide Inv, RoomOK, ReleaseSide;
      ok := lock.Release(t, mode);
      if !ok {
        queue.DiscardWaiter(t);
        queue.Forget(t);
      }
    }

    // Registered callers never take the error path.
    method Unlock(t: ThreadId, mode: Side) returns (ok: bool)
      requires Valid() && C.May(Snapshot(), C.CondEvent.Unlock(t)) && phases[t].mode == mode
      modifies Repr()
      ensures Valid() && Snapshot() == old(C.Step(Snapshot(), C.CondEvent.Unlock(t)))
      ensures ok && phases == old(phases)[t := C.Asleep(mode, old(phases)[t].checked)]
    {
      hide C.CondInv, Inv, RoomOK, ReleaseSide;
      C.CondParts(Snapshot());
      C.UnlockKeeps(Snapshot(), t);
      ok := ReleaseOrRemove(t, mode);
      phases := phases[t := C.Asleep(mode, phases[t].checked)];
    }

    // The caller leaves its sleep: notified, or timed out (threads).
    method LeaveSleep(t: ThreadId) returns (got: bool)
      requires Valid() && C.Sleeping(Snapshot(), t)
      requires !queue.slots[t].status.Signalled? ==> lock.cfg.runtime.Threads?
      modifies this`phases
      ensures Valid() && got == queue.slots[t].status.Signalled?
      ensures Snapshot() == old(C.Step(Snapshot(), if got then C.CondEvent.Wake(t) else C.CondEvent.GiveUp(t)))
    {
      got := queue.slots[t].status.Signalled?;
      C.PhaseMoveKeeps(Snapshot(), if got then C.CondEvent.Wake(t) else C.CondEvent.GiveUp(t));
      phases := phases[t := C.Back(phases[t], got)];
    }

    method CancelSleep(t: ThreadId)
      requires Valid() && C.May(Snapshot(), C.CondEvent.CancelSleep(t))
      modifies queue
      ensures Valid() && Snapshot() == old(C.Step(Snapshot(), C.CondEvent.CancelSleep(t)))
    {
      C.PhaseMoveKeeps(Snapshot(), C.CondEvent.CancelSleep(t));
      queue.Cancel(t);
    }

    // `except CancelledError: self._remove_waiter(waiter)`.
    method DropWaiter(t: ThreadId)
      requires Valid() && C.May(Snapshot(), C.CondEvent.DropWaiter(t))
      modifies queue, this`phases
      ensures Valid() && Snapshot() == old(C.Step(Snapshot(), C.CondEvent.DropWaiter(t)))
    {
      hide C.CondInv, Inv, RoomOK, C.Step, Discard, CutOut;
      C.CondParts(Snapshot());
      C.PhaseMoveKeeps(Snapshot(), C.CondEvent.DropWaiter(t));
      C.DropIs(Snapshot(), t);
      queue.DiscardWaiter(t);
      phases := phases[t := C.Back(phases[t], false)];
    }

    // One `self.acquire()` of the `finally` block, up to its first park.
    method Relock(t: ThreadId, mode: Side) returns (out: Outcome)
      requires Valid() && C.May(Snapshot(), C.CondEvent.Relock(t)) && phases[t].mode == mode
      modifies lock.Repr()
      ensures Valid() && Snapshot() == old(C.Step(Snapshot(), C.CondEvent.Relock(t)))
      ensures C.StandingOf(lock.Snapshot(), t) == old(AfterAsking(lock.Snapshot(), t, mode))
      ensures out == if old(GoesStraightThrough(lock.Snapshot(), t, mode)) then Granted else Waiting
    {
      hide C.CondInv, Inv, RoomOK, Exec, C.StandingOf, AfterAsking, GoesStraightThrough, C.HoldsMode;
      C.CondParts(Snapshot());
      C.RelockKeeps(Snapshot(), t);
      RelockAsks(Snapshot(), t);
      out := lock.Arrive(t, mode, true);
    }

    // The end of `wait`: a thread that was not signalled removes its waiter now.
    method Return(t: ThreadId, got: bool)
      requires Valid() && C.May(Snapshot(), C.CondEvent.Return(t)) && phases[t].got == got
      modifies queue, this`phases
      ensures Valid() && Snapshot() == old(C.Step(Snapshot(), C.CondEvent.Return(t)))
      ensures t !in queue.waiters && t !in queue.slots
      ensures C.StandingOf(lock.Snapshot(), t) == C.OneHold(old(phases)[t].mode)
    {
      hide C.CondInv, Inv, RoomOK, C.StandingOf, C.Step, C.HoldsMode, Free, Discard;
      C.CondParts(Snapshot());
      C.ReturnKeeps(Snapshot(), t);
      C.ReturnStanding(Snapshot(), t);
      C.ReturnIs(Snapshot(), t);
      if !got && lock.cfg.runtime.Threads? {
        queue.DiscardWaiter(t);
      }
      queue.Forget(t);
      phases := phases - {t};
    }
  }
}
