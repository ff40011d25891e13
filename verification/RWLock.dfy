// The lock object as the source has it: mutable counters, an owner dictionary and two
// proxies with their wait queues, changed in place by the mixin methods.  Every method is
// proved against the snapshot function of the same name.
module RWLockObject {
  import opened WaitQueues
  import M = LockModel
  import opened LockModel
  import opened Ledger
  import opened Invariant
  import opened Preservation
  import opened Refinement
  import opened Seating

  class LockProxy {
    var thoseWaiting: int
    var waiterSeq: nat
    const condition: WakeQueue

    constructor ()
      ensures fresh(condition) && thoseWaiting == 0 && waiterSeq == 0
      ensures condition.View() == Room([], map[])
    {
      thoseWaiting, waiterSeq := 0, 0;
      condition := new WakeQueue();
    }
  }

  // Taking the hold does not put the caller back to sleep.
  lemma AcquireStays(s: State, t: ThreadId, side: Side)
    requires RoomsOpen(s) && Inside(s, side, t) && StatusOf(s, side, t).Signalled?
    ensures var core := M.AcquireCore(s, t, side, true, Some(Ticket(s, side, t)));
            Inside(core, side, t) && StatusOf(core, side, t).Signalled? && RoomsOpen(core)
  {
    AcquireReadQuiet(s, t, true, Some(Ticket(s, side, t)));
  }

  class RWLock {
    const cfg: Config
    const read: LockProxy
    const write: LockProxy
    var writerActive: bool
    var writerOwner: Option<ThreadId>
    var writerId: Option<ThreadId>
    var writeCount: int
    var readersActive: int
    var readerOwners: map<ThreadId, int>
    var readersTurn: bool
    var readerPhaseCutoff: int
    var readerPhasePending: int
    var downgraded: Option<ThreadId>
    var clearing: set<ThreadId>

    ghost function Repr(): set<object> {
      {this, read, write, read.condition, write.condition}
    }

    ghost function Snapshot(): State
      reads Repr()
    {
      State(cfg, writerActive, writerOwner, writerId, writeCount, readersActive, readerOwners,
            readersTurn, readerPhaseCutoff, readerPhasePending,
            Proxy(read.thoseWaiting, read.waiterSeq, read.condition.View()),
            Proxy(write.thoseWaiting, write.waiterSeq, write.condition.View()),
            downgraded, clearing)
    }

    // The two proxies and their queues are different objects with well-formed rooms.
    ghost predicate Valid()
      reads Repr()
    {
      && read != write && read.condition != write.condition
      && RoomsOpen(Snapshot())
    }

    constructor (cfg: Config)
      ensures Valid() && fresh(Repr())
      ensures Snapshot() == Init(cfg) && Inv(Snapshot())
    {
      this.cfg := cfg;
      read := new LockProxy();
      write := new LockProxy();
      writerActive, writerOwner, writerId, writeCount := false, None, None, 0;
      readersActive, readerOwners := 0, map[];
      readersTurn, readerPhaseCutoff, readerPhasePending := false, 0, 0;
      downgraded, clearing := None, {};
      new;
      InitInv(cfg);
    }

    // ---- Ownership ----

    method IsCurrentReader(t: ThreadId) returns (b: bool)
      ensures b == M.IsCurrentReader(Snapshot(), t)
    {
      b := t in readerOwners && readerOwners[t] > 0;
    }

    method IsCurrentWriter(t: ThreadId) returns (b: bool)
      ensures b == M.IsCurrentWriter(Snapshot(), t)
    {
      if cfg.reentrant {
        return writerId == Some(t);
      }
      return writerOwner == Some(t);
    }

    method RecordReaderAcquire(t: ThreadId)
      requires Valid()
      modifies this`readersActive, this`readerOwners
      ensures Valid() && Snapshot() == old(M.RecordReaderAcquire(Snapshot(), t))
    {
      readersActive := readersActive + 1;
      var count := if t in readerOwners then readerOwners[t] else 0;
      readerOwners := readerOwners[t := count + 1];
    }

    // ---- Waking ----

    method NotifyReaders()
      requires Valid()
      modifies read.condition
      ensures Valid() && Snapshot() == old(WakeReaders(Snapshot()))
    {
      WakesQuiet(Snapshot());
      read.condition.NotifyAllUnlocked();
    }

    method NotifyWriter()
      requires Valid()
      modifies write.condition
      ensures Valid() && Snapshot() == old(WakeWriter(Snapshot()))
    {
      WakesQuiet(Snapshot());
      write.condition.NotifyUnlocked(1);
    }

    method WakeWaitingReader()
      requires Valid()
      modifies read.condition
      ensures Valid() && Snapshot() == old(M.WakeWaitingReader(Snapshot()))
    {
      WakesQuiet(Snapshot());
      var has := read.condition.HasWaiters();
      if cfg.strategy.StrictFair? {
        if writerActive || readerPhasePending <= 0 || read.thoseWaiting <= 0 || !has {
          return;
        }
        var count := if read.thoseWaiting < readerPhasePending then read.thoseWaiting else readerPhasePending;
        read.condition.NotifyUnlocked(count);
      } else if !writerActive && read.thoseWaiting > 0 && has {
        read.condition.NotifyAllUnlocked();
      }
    }

    method StartReaderPhase()
      requires Valid()
      modifies this`readersTurn, this`readerPhasePending, this`readerPhaseCutoff, read.condition
      ensures Valid() && Snapshot() == old(M.StartReaderPhase(Snapshot()))
    {
      if cfg.strategy.StrictFair? {
        var pending := read.thoseWaiting;
        readersTurn := pending > 0;
        readerPhasePending := pending;
        readerPhaseCutoff := read.waiterSeq;
        if readersTurn {
          WakeWaitingReader();
        }
      } else {
        readersTurn := true;
        WakeWaitingReader();
      }
    }

    method FinishOrContinueReaderPhase()
      requires Valid()
      modifies this`readersTurn, this`readerPhasePending, this`readerPhaseCutoff
      modifies read.condition, write.condition
      ensures Valid() && Snapshot() == old(FinishOrContinue(Snapshot()))
    {
      var busy := if cfg.strategy.StrictFair? then readerPhasePending > 0 else read.thoseWaiting > 0;
      if readersTurn && busy {
        WakeWaitingReader();
        return;
      }
      readersTurn := false;
      if cfg.strategy.StrictFair? {
        readerPhaseCutoff := 0;
        readerPhasePending := 0;
      }
      var has := write.condition.HasWaiters();
      if write.thoseWaiting > 0 && has {
        NotifyWriter();
      }
    }

    // ---- Read side ----

    method CanRead(t: ThreadId, waiting: bool, ticket: Option<nat>) returns (b: bool)
      ensures b == M.CanRead(Snapshot(), t, waiting, ticket)
    {
      var reader := IsCurrentReader(t);
      if cfg.reentrant {
        if writerId.Some? {
          b := IsCurrentWriter(t);
          return;
        }
      } else if writerActive {
        return false;
      }
      match cfg.strategy
      case WriterPreferring =>
        return write.thoseWaiting == 0 || (readersActive > 0 && reader);
      case ReaderPreferring =>
        return true;
      case ReaderPhaseFair =>
        return readersTurn || write.thoseWaiting == 0 || (readersActive > 0 && reader);
      case StrictFair =>
        if write.thoseWaiting == 0 {
          return true;
        }
        if readersTurn && waiting && ticket.Some? && ticket.value <= readerPhaseCutoff && readerPhasePending > 0 {
          return true;
        }
        return readersActive > 0 && reader;
    }

    method AcquireReadCore(t: ThreadId, waiting: bool, ticket: Option<nat>)
      requires Valid()
      modifies this`readersActive, this`readerOwners, this`readerPhasePending, read.condition
      ensures Valid() && Snapshot() == old(M.AcquireReadCore(Snapshot(), t, waiting, ticket))
    {
      if cfg.strategy.StrictFair? && readersTurn && waiting && ticket.Some?
         && ticket.value <= readerPhaseCutoff && readerPhasePending > 0 {
        readerPhasePending := readerPhasePending - 1;
      }
      RecordReaderAcquire(t);
      match cfg.strategy
      case WriterPreferring | ReaderPreferring =>
      case ReaderPhaseFair =>
        if readersTurn && read.thoseWaiting > 0 {
          WakeWaitingReader();
        }
      case StrictFair =>
        if readersTurn && readerPhasePending > 0 {
          WakeWaitingReader();
        }
    }

    // False where the source raises RuntimeError.
    method ReleaseReadCore(t: ThreadId) returns (ok: bool)
      requires Valid()
      modifies this`readersActive, this`readerOwners, this`readersTurn
      modifies this`readerPhasePending, this`readerPhaseCutoff, read.condition, write.condition
      ensures Valid()
      ensures ok == old(M.ReleaseReadCore(Snapshot(), t)).Some?
      ensures Snapshot() == if ok then old(M.ReleaseReadCore(Snapshot(), t)).value else old(Snapshot())
    {
      var count := if t in readerOwners then readerOwners[t] else 0;
      if count == 0 {
        return false;
      }
      if count == 1 {
        readerOwners := readerOwners - {t};
      } else {
        readerOwners := readerOwners[t := count - 1];
      }
      readersActive := readersActive - 1;
      if readersActive == 0 {
        match cfg.strategy
        case WriterPreferring | ReaderPreferring =>
          var has := write.condition.HasWaiters();
          if has {
            NotifyWriter();
          }
        case ReaderPhaseFair | StrictFair =>
          FinishOrContinueReaderPhase();
      }
      return true;
    }

    method OnReaderAbort(ticket: nat)
      requires Valid()
      modifies this`readersTurn, this`readerPhasePending, this`readerPhaseCutoff
      modifies read.condition, write.condition
      ensures Valid() && Snapshot() == old(M.OnReaderAbort(Snapshot(), ticket))
    {
      match cfg.strategy
      case WriterPreferring =>
      case ReaderPreferring =>
        var has := write.condition.HasWaiters();
        if read.thoseWaiting == 0 && readersActive == 0 && has {
          NotifyWriter();
        }
      case ReaderPhaseFair =>
        if readersTurn && readersActive == 0 {
          FinishOrContinueReaderPhase();
        }
      case StrictFair =>
        if readersTurn && ticket <= readerPhaseCutoff {
          if readerPhasePending > 0 {
            readerPhasePending := readerPhasePending - 1;
          }
        }
        if readersTurn && readerPhasePending > 0 {
          WakeWaitingReader();
          return;
        }
        if readersTurn && readersActive == 0 {
          FinishOrContinueReaderPhase();
        }
    }

    // ---- Write side ----

    method CanWrite(t: ThreadId) returns (b: bool)
      ensures b == M.CanWrite(Snapshot(), t)
    {
      if cfg.reentrant && writerId.Some? {
        b := IsCurrentWriter(t);
        return;
      }
      if (!cfg.reentrant && writerActive) || readersActive > 0 {
        return false;
      }
      match cfg.strategy
      case WriterPreferring => return readersActive == 0;
      case ReaderPreferring => return readersActive == 0 && read.thoseWaiting == 0;
      case ReaderPhaseFair => return !(readersTurn && read.thoseWaiting > 0);
      case StrictFair => return !(readersTurn && readerPhasePending > 0);
    }

    method AcquireWriteCore(t: ThreadId)
      requires Valid()
      modifies this`writerActive, this`writerOwner, this`writerId, this`writeCount
      ensures Valid() && Snapshot() == old(M.AcquireWriteCore(Snapshot(), t))
    {
      if cfg.reentrant {
        writerId := Some(t);
        writeCount := writeCount + 1;
      } else {
        writerActive := true;
        writerOwner := Some(t);
      }
    }

    method OnWriterAbort()
      requires Valid()
      modifies this`readersTurn, this`readerPhasePending, this`readerPhaseCutoff
      modifies read.condition, write.condition
      ensures Valid() && Snapshot() == old(M.OnWriterAbort(Snapshot()))
    {
      var hasWriters := write.condition.HasWaiters();
      var hasReaders := read.condition.HasWaiters();
      match cfg.strategy
      case WriterPreferring =>
        if write.thoseWaiting > 0 && hasWriters {
          NotifyWriter();
        } else if hasReaders {
          NotifyReaders();
        }
      case ReaderPreferring =>
        if read.thoseWaiting > 0 && hasReaders {
          NotifyReaders();
        } else if hasWriters {
          NotifyWriter();
        }
      case ReaderPhaseFair | StrictFair =>
        if read.thoseWaiting > 0 && hasReaders {
          StartReaderPhase();
        } else if hasWriters {
          NotifyWriter();
        }
    }

    method ReleaseWriteCore(t: ThreadId) returns (ok: bool)
      requires Valid()
      modifies this`writerActive, this`writerOwner, this`writerId, this`writeCount
      modifies this`readersTurn, this`readerPhasePending, this`readerPhaseCutoff
      modifies read.condition, write.condition
      ensures Valid()
      ensures ok == old(M.ReleaseWriteCore(Snapshot(), t)).Some?
      ensures Snapshot() == if ok then old(M.ReleaseWriteCore(Snapshot(), t)).value else old(Snapshot())
    {
      if cfg.reentrant {
        var mine := IsCurrentWriter(t);
        if !mine {
          return false;
        }
        writeCount := writeCount - 1;
        if writeCount == 0 {
          writerId := None;
          OnWriterAbort();
        }
      } else {
        if !writerActive {
          return false;
        }
        writerActive := false;
        writerOwner := None;
        OnWriterAbort();
      }
      return true;
    }

    method DowngradeCore(t: ThreadId) returns (ok: bool)
      requires Valid()
      modifies this`writerActive, this`writerOwner, this`writerId, this`writeCount
      modifies this`readersActive, this`readerOwners
      modifies this`readersTurn, this`readerPhasePending, this`readerPhaseCutoff, read.condition
      ensures Valid()
      ensures ok == old(M.DowngradeCore(Snapshot(), t)).Some?
      ensures Snapshot() == if ok then old(M.DowngradeCore(Snapshot(), t)).value else old(Snapshot())
    {
      var mine := IsCurrentWriter(t);
      if cfg.reentrant {
        if !mine || writeCount > 1 {
          return false;
        }
        writerId := None;
        writeCount := 0;
      } else {
        if !writerActive || !mine {
          return false;
        }
        writerActive := false;
        writerOwner := None;
      }
      RecordReaderAcquire(t);
      var has := read.condition.HasWaiters();
      ok := true;
      match cfg.strategy
      case WriterPreferring =>
        if write.thoseWaiting == 0 && has {
          NotifyReaders();
        }
      case ReaderPreferring =>
        if has {
          NotifyReaders();
        }
      case ReaderPhaseFair | StrictFair =>
        StartReaderPhase();
    }

    // ---- The proxies: acquire ----

    method CheckWriteAcquireAllowed(t: ThreadId) returns (ok: bool)
      ensures ok == !UpgradeRefused(Snapshot(), t)
    {
      var reader := IsCurrentReader(t);
      var writer := IsCurrentWriter(t);
      ok := !(readersActive > 0 && reader && !writer);
    }

    method CanAcquire(t: ThreadId, side: Side, waiting: bool, ticket: Option<nat>) returns (b: bool)
      ensures b == M.CanAcquire(Snapshot(), t, side, waiting, ticket)
    {
      match side
      case Read => b := CanRead(t, waiting, ticket);
      case Write => b := CanWrite(t);
    }

    method AcquireCore(t: ThreadId, side: Side, waiting: bool, ticket: Option<nat>)
      requires Valid()
      modifies Repr()
      ensures Valid() && Snapshot() == old(M.AcquireCore(Snapshot(), t, side, waiting, ticket))
    {
      match side
      case Read => AcquireReadCore(t, waiting, ticket);
      case Write => AcquireWriteCore(t);
    }

    function ProxyFor(side: Side): LockProxy {
      match side case Read => read case Write => write
    }

    // Back in the writer proxy: tasks reset the marker at once, threads in a later step.
    method AfterGrant(t: ThreadId, side: Side)
      requires Valid()
      modifies this`downgraded, this`clearing
      ensures Valid() && Snapshot() == old(M.AfterGrant(Snapshot(), t, side))
    {
      if side == Write {
        if cfg.runtime.Tasks? {
          downgraded := None;
        } else {
          clearing := clearing + {t};
        }
      }
    }

    // `_waiter_seq += 1` and `those_waiting += 1` on the way into the loop.
    method EnterLoop(t: ThreadId, side: Side)
      requires Valid() && !Inside(Snapshot(), side, t)
      modifies ProxyFor(side), ProxyFor(side).condition
      ensures Valid() && Snapshot() == old(M.Enter(Snapshot(), t, side))
    {
      var p := ProxyFor(side);
      p.waiterSeq := p.waiterSeq + 1;
      p.thoseWaiting := p.thoseWaiting + 1;
      p.condition.Enter(t, p.waiterSeq);
    }

    // `those_waiting -= 1` in the `finally` block.
    method LeaveLoop(t: ThreadId, side: Side)
      requires Valid() && Inside(Snapshot(), side, t) && StatusOf(Snapshot(), side, t).Signalled?
      modifies ProxyFor(side), ProxyFor(side).condition
      ensures Valid() && Snapshot() == old(M.Leave(Snapshot(), t, side))
    {
      var p := ProxyFor(side);
      p.condition.Exit(t);
      p.thoseWaiting := p.thoseWaiting - 1;
    }

    // The wait ended without a notification.
    method RouseWaiter(t: ThreadId, side: Side)
      requires Valid() && Inside(Snapshot(), side, t)
      modifies ProxyFor(side).condition
      ensures Valid() && Snapshot() == old(M.Rouse(Snapshot(), t, side))
    {
      ProxyFor(side).condition.Rouse(t);
    }

    // The tail of `acquire` after the loop: take the hold, then leave the loop.
    method GrantWaiting(t: ThreadId, side: Side)
      requires Valid() && Inside(Snapshot(), side, t) && StatusOf(Snapshot(), side, t).Signalled?
      modifies Repr()
      ensures Valid() && Snapshot() == old(M.GrantWaiting(Snapshot(), t, side))
    {
      hide M.AcquireReadCore, M.AcquireWriteCore;
      var ticket := ProxyFor(side).condition.slots[t].ticket;
      AcquireStays(Snapshot(), t, side);
      AcquireCore(t, side, true, Some(ticket));
      LeaveLoop(t, side);
      AfterGrant(t, side);
    }

    // The `finally` block of a caller that did not acquire.
    method Abandon(t: ThreadId, side: Side)
      requires Valid() && Inside(Snapshot(), side, t) && StatusOf(Snapshot(), side, t).Signalled?
      modifies Repr()
      ensures Valid() && Snapshot() == old(M.Abandon(Snapshot(), t, side))
    {
      hide M.OnReaderAbort, M.OnWriterAbort;
      var ticket := ProxyFor(side).condition.slots[t].ticket;
      LeaveLoop(t, side);
      match side
      case Read => OnReaderAbort(ticket);
      case Write => OnWriterAbort();
    }

    // One turn of the wait loop.
    method LoopTurn(t: ThreadId, side: Side) returns (out: Outcome)
      requires Valid() && Inside(Snapshot(), side, t) && StatusOf(Snapshot(), side, t).Signalled?
      modifies Repr()
      ensures Valid() && Snapshot() == old(M.LoopTurn(Snapshot(), t, side))
      ensures out == old(LoopOutcome(Snapshot(), t, side))
    {
      var p := ProxyFor(side);
      var may := CanAcquire(t, side, true, Some(p.condition.slots[t].ticket));
      if may {
        GrantWaiting(t, side);
        return Granted;
      }
      p.condition.Wait(t);
      return Waiting;
    }

    method Arrive(t: ThreadId, side: Side, blocking: bool) returns (out: Outcome)
      requires Valid() && Inv(Snapshot()) && Free(Snapshot(), t)
      modifies Repr()
      ensures Valid() && (Snapshot(), out) == old(Exec(Snapshot(), Event.Arrive(t, side, blocking)))
      ensures Inv(Snapshot())
    {
      hide PhaseOK, ReadersBlocked, WritersAwake, M.LoopTurn, M.AcquireCore, M.CanRead, M.CanWrite;
      ArriveInv(Snapshot(), t, side, blocking);
      if side == Write {
        var allowed := CheckWriteAcquireAllowed(t);
        if !allowed {
          return Raised;
        }
      }
      var may := CanAcquire(t, side, false, None);
      if may {
        AcquireCore(t, side, false, None);
        AfterGrant(t, side);
        return Granted;
      }
      if !blocking {
        return Refused;
      }
      EnterLoop(t, side);
      out := LoopTurn(t, side);
    }

    method Resume(t: ThreadId, side: Side) returns (out: Outcome)
      requires Valid() && Inv(Snapshot()) && Enabled(Snapshot(), Event.Resume(t, side))
      modifies Repr()
      ensures Valid() && (Snapshot(), out) == old(Exec(Snapshot(), Event.Resume(t, side)))
      ensures Inv(Snapshot())
    {
      LoopTurnInv(Snapshot(), t, side);
      out := LoopTurn(t, side);
    }

    method Expire(t: ThreadId, side: Side) returns (out: Outcome)
      requires Valid() && Inv(Snapshot()) && Enabled(Snapshot(), Event.Expire(t, side))
      modifies Repr()
      ensures Valid() && (Snapshot(), out) == old(Exec(Snapshot(), Event.Expire(t, side)))
      ensures Inv(Snapshot())
    {
      hide PhaseOK, ReadersBlocked, WritersAwake, M.Abandon, M.GrantWaiting, M.CanRead, M.CanWrite;
      ExpireInv(Snapshot(), t, side);
      RouseWaiter(t, side);
      var may := CanAcquire(t, side, true, Some(ProxyFor(side).condition.slots[t].ticket));
      if may {
        GrantWaiting(t, side);
        return Granted;
      }
      Abandon(t, side);
      return Abandoned;
    }

    method Cancel(t: ThreadId, side: Side)
      requires Valid() && Inv(Snapshot()) && Enabled(Snapshot(), Event.Cancel(t, side))
      modifies ProxyFor(side).condition
      ensures Valid() && Snapshot() == old(Next(Snapshot(), Event.Cancel(t, side)))
      ensures Inv(Snapshot())
    {
      CancelInv(Snapshot(), t, side);
      ProxyFor(side).condition.Cancel(t);
    }

    method Abort(t: ThreadId, side: Side)
      requires Valid() && Inv(Snapshot()) && Enabled(Snapshot(), Event.Abort(t, side))
      modifies Repr()
      ensures Valid() && Snapshot() == old(Next(Snapshot(), Event.Abort(t, side)))
      ensures Inv(Snapshot())
    {
      hide PhaseOK, ReadersBlocked, WritersAwake, M.Abandon;
      StepInv(Snapshot(), Event.Abort(t, side));
      RouseWaiter(t, side);
      Abandon(t, side);
    }

    method ResetMarker(t: ThreadId)
      requires Valid() && Inv(Snapshot()) && t in clearing
      modifies this`downgraded, this`clearing
      ensures Valid() && Snapshot() == old(Next(Snapshot(), Event.ResetMarker(t)))
      ensures Inv(Snapshot())
    {
      ResetMarkerInv(Snapshot(), t);
      downgraded := None;
      clearing := clearing - {t};
    }

    // ---- The proxies: release and downgrade ----

    method Release(t: ThreadId, side: Side) returns (ok: bool)
      requires Valid() && Inv(Snapshot()) && Free(Snapshot(), t)
      modifies Repr()
      ensures Valid() && (Snapshot(), ok) == old(ReleaseSide(Snapshot(), t, side))
      ensures Inv(Snapshot())
    {
      ReleaseInv(Snapshot(), t, side);
      match side
      case Read =>
        ok := ReleaseReadCore(t);
      case Write =>
        if downgraded == Some(t) {
          downgraded := None;
          ok := ReleaseReadCore(t);
          if ok {
            return;
          }
        }
        ok := ReleaseWriteCore(t);
    }

    method Downgrade(t: ThreadId) returns (ok: bool)
      requires Valid() && Inv(Snapshot()) && Free(Snapshot(), t)
      modifies Repr()
      ensures Valid() && Snapshot() == old(Next(Snapshot(), Event.Downgrade(t)))
      ensures ok == (old(Exec(Snapshot(), Event.Downgrade(t))).1 == Done)
      ensures Inv(Snapshot())
    {
      StepInv(Snapshot(), Event.Downgrade(t));
      ok := DowngradeCore(t);
      if ok {
        downgraded := Some(t);
      }
    }

    // One critical section of any caller.
    method Perform(e: Event) returns (out: Outcome)
      requires Valid() && Inv(Snapshot()) && Enabled(Snapshot(), e)
      modifies Repr()
      ensures Valid() && (Snapshot(), out) == old(Exec(Snapshot(), e))
      ensures Inv(Snapshot())
    {
      out := Done;
      match e
      case Arrive(t, side, blocking) => out := Arrive(t, side, blocking);
      case Resume(t, side) => out := Resume(t, side);
      case Expire(t, side) => out := Expire(t, side);
      case Cancel(t, side) => Cancel(t, side); out := Waiting;
      case Abort(t, side) => Abort(t, side); out := Abandoned;
      case ResetMarker(t) => ResetMarker(t);
      case Release(t, side) =>
        var ok := Release(t, side);
        out := if ok then Done else Raised;
      case Downgrade(t) =>
        var ok := Downgrade(t);
        out := if ok then Done else Raised;
    }

    method IsInside(t: ThreadId, side: Side) returns (b: bool)
      ensures b == Inside(Snapshot(), side, t)
    {
      b := t in ProxyFor(side).condition.slots;
    }

    method IsFree(t: ThreadId) returns (b: bool)
      ensures b == Free(Snapshot(), t)
    {
      var r := IsInside(t, Read);
      var w := IsInside(t, Write);
      b := !r && !w && t !in clearing;
    }

    method IsEnabled(e: Event) returns (b: bool)
      ensures b == Enabled(Snapshot(), e)
    {
      match e
      case ResetMarker(t) =>
        return t in clearing;
      case Arrive(_, _, _) | Release(_, _) | Downgrade(_) =>
        b := IsFree(e.t);
      case Resume(_, _) | Expire(_, _) | Cancel(_, _) | Abort(_, _) =>
        b := IsInside(e.t, e.side);
        if b {
          var status := ProxyFor(e.side).condition.slots[e.t].status;
          b := if e.Resume? then status.Signalled?
               else if e.Expire? then cfg.runtime.Threads? && !status.Cancelling?
               else if e.Cancel? then cfg.runtime.Tasks? && !status.Cancelling?
               else cfg.runtime.Tasks? ==> status.Cancelling?;
        }
    }

    // The whole of a blocking `acquire` without timeout.  After the caller's request, the
    // critical sections run in the order given by `schedule`; those that are not possible
    // when their turn comes are skipped.  The schedule also decides when the caller takes
    // its turns of the wait loop, and whether and when it is cancelled.
    method Acquire(t: ThreadId, side: Side, schedule: seq<Event>)
      returns (out: Outcome, ghost ss: seq<State>, ghost es: seq<Event>)
      requires Valid() && Inv(Snapshot()) && Free(Snapshot(), t)
      requires forall e :: e in schedule && e.t == t ==> IsOwnTurn(e, t, side)
      modifies Repr()
      ensures Valid() && Inv(Snapshot())
      ensures AcquireRun(ss, es, t, side, out) && ss[0] == old(Snapshot()) && ss[|es|] == Snapshot()
      ensures (Snapshot(), out) == old(Played(Snapshot(), t, side, schedule))
      ensures out == Waiting && (schedule == [] || schedule[|schedule| - 1] == Event.Resume(t, side)) ==>
                SleepsOn(Snapshot(), side, t)
    {
      hide Inv, ArriveStep, M.LoopTurn, M.CanAcquire, Exec, AcquireRun;
      out := Arrive(t, side, true);
      ss, es := [old(Snapshot()), Snapshot()], [Event.Arrive(t, side, true)];
      AcquireBegins(ss[0], t, side);
      var i := 0;
      assert schedule[0..] == schedule;
      while out == Waiting && i < |schedule|
        invariant 0 <= i <= |schedule|
        invariant Valid() && Inv(Snapshot())
        invariant |ss| == |es| + 1 >= 2 && ss[0] == old(Snapshot()) && ss[|es|] == Snapshot()
        invariant AcquireRun(ss, es, t, side, out)
        invariant Play(Snapshot(), out, t, schedule[i..]) == old(Played(Snapshot(), t, side, schedule))
        invariant out == Waiting && (i == 0 || schedule[i - 1] == Event.Resume(t, side)) ==>
                    SleepsOn(Snapshot(), side, t)
      {
        var e := schedule[i];
        assert schedule[i..][1..] == schedule[i + 1..];
        i := i + 1;
        var possible := IsEnabled(e);
        if possible {
          AcquireGoesOn(ss, es, e, t, side);
          var done := Perform(e);
          ss, es := ss + [Snapshot()], es + [e];
          if e.t == t {
            out := done;
          }
        } else if e == Event.Resume(t, side) {
          AsleepStill(ss, es, t, side);
        }
      }
    }
  }

  // What a caller inside a blocking acquire may do: take a turn of the loop, or be
  // cancelled and abort.
  predicate IsOwnTurn(e: Event, t: ThreadId, side: Side) {
    e == Resume(t, side) || e == Event.Cancel(t, side) || e == Event.Abort(t, side)
  }

  // Where a schedule leads a caller that has come as far as `out`: steps that are not
  // possible when their turn comes are skipped, and its own steps decide how far it gets.
  function Play(s: State, out: Outcome, t: ThreadId, schedule: seq<Event>): (State, Outcome)
    decreases |schedule|
  {
    if out != Waiting || schedule == [] then (s, out)
    else
      var e := schedule[0];
      if !Enabled(s, e) then Play(s, out, t, schedule[1..])
      else Play(Next(s, e), if e.t == t then Exec(s, e).1 else out, t, schedule[1..])
  }

  function Played(s: State, t: ThreadId, side: Side, schedule: seq<Event>): (State, Outcome)
    requires Free(s, t)
  {
    var (s', out) := Exec(s, Arrive(t, side, true));
    Play(s', out, t, schedule)
  }

  // Inside the loop and not signalled.
  predicate SleepsOn(s: State, side: Side, t: ThreadId) {
    Inside(s, side, t) && !StatusOf(s, side, t).Signalled?
  }

  // The last step of the run is the grant that t asked for.
  ghost predicate EndsInGrant(ss: seq<State>, es: seq<Event>, t: ThreadId, side: Side)
    requires Run(ss, es) && es != []
  {
    es[|es| - 1].t == t && ActionOf(ss[|es| - 1], es[|es| - 1]) == Take(side, t)
  }

  // A run that begins with a request by t and in which it has come as far as `out` says:
  // refused as an upgrade, granted by the last step, aborted by the last step, or waiting.
  ghost predicate AcquireRun(ss: seq<State>, es: seq<Event>, t: ThreadId, side: Side, out: Outcome) {
    && Run(ss, es) && es != [] && es[0] == Arrive(t, side, true)
    && out in {Granted, Raised, Waiting, Abandoned}
    && (out == Raised <==> side == Write && UpgradeRefused(ss[0], t))
    && (out == Granted <==> EndsInGrant(ss, es, t, side))
    && (out == Abandoned <==> es[|es| - 1] == Abort(t, side))
    && (out == Waiting <==> Inside(ss[|es|], side, t))
  }

  lemma AcquireBegins(s: State, t: ThreadId, side: Side)
    requires Inv(s) && Free(s, t)
    ensures var e := Arrive(t, side, true); var s' := Next(s, e);
            && AcquireRun([s, s'], [e], t, side, Exec(s, e).1)
            && (Exec(s, e).1 == Waiting ==> SleepsOn(s', side, t))
  {
    var s' := Next(s, Arrive(t, side, true));
    StepSeats(s, Arrive(t, side, true), side);
    assert Inside(s', side, t) <==> t in Seats(s', side);
  }

  // A caller that cannot take its turn has not been signalled.
  lemma AsleepStill(ss: seq<State>, es: seq<Event>, t: ThreadId, side: Side)
    requires AcquireRun(ss, es, t, side, Waiting) && !Enabled(ss[|es|], Resume(t, side))
    ensures SleepsOn(ss[|es|], side, t)
  {}

  // Any possible step goes on with it: the caller's own turns as their outcome says, and
  // the steps of others without ending it.
  lemma AcquireGoesOn(ss: seq<State>, es: seq<Event>, e: Event, t: ThreadId, side: Side)
    requires AcquireRun(ss, es, t, side, Waiting) && Inv(ss[|es|]) && Enabled(ss[|es|], e)
    requires e.t == t ==> IsOwnTurn(e, t, side)
    ensures var s' := Next(ss[|es|], e); var out := if e.t == t then Exec(ss[|es|], e).1 else Waiting;
            && AcquireRun(ss + [s'], es + [e], t, side, out)
            && (e == Resume(t, side) && out == Waiting ==> SleepsOn(s', side, t))
  {
    hide Inv, Exec;
    RunExtend(ss, es, e);
    if e.t == t {
      OwnTurnMeans(ss[|es|], e, t, side);
    } else {
      OthersKeepSeats(ss[|es|], e, t, side);
    }
  }

  lemma OwnTurnMeans(s: State, e: Event, t: ThreadId, side: Side)
    requires Inv(s) && Enabled(s, e) && Inside(s, side, t) && IsOwnTurn(e, t, side)
    ensures var s' := Next(s, e); var out := Exec(s, e).1;
            && out in {Granted, Waiting, Abandoned}
            && (out == Abandoned <==> e == Abort(t, side))
            && (ActionOf(s, e) == Take(side, t) <==> out == Granted)
            && (Inside(s', side, t) <==> out == Waiting)
            && (e == Resume(t, side) && out == Waiting ==> SleepsOn(s', side, t))
  {
    OwnTurnOutcome(s, e, t, side);
    OwnTurnSeat(s, e, t, side);
    hide Inv, Exec;
  }

  lemma OwnTurnSeat(s: State, e: Event, t: ThreadId, side: Side)
    requires Inv(s) && Enabled(s, e) && Inside(s, side, t) && IsOwnTurn(e, t, side)
    requires Exec(s, e).1 in {Granted, Waiting, Abandoned}
    ensures Inside(Next(s, e), side, t) <==> Exec(s, e).1 == Waiting
  {
    assert t in Seats(s, side);
    hide Inv, Exec, Seats;
    StepSeats(s, e, side);
    SeatMeans(Next(s, e), t, side);
  }

  lemma SeatMeans(s: State, t: ThreadId, side: Side)
    ensures Inside(s, side, t) <==> t in Seats(s, side)
  {}

  lemma OwnTurnOutcome(s: State, e: Event, t: ThreadId, side: Side)
    requires Enabled(s, e) && Inside(s, side, t) && IsOwnTurn(e, t, side)
    ensures Exec(s, e).1 in {Granted, Waiting, Abandoned}
    ensures Exec(s, e).1 == Abandoned <==> e == Abort(t, side)
    ensures e == Resume(t, side) && Exec(s, e).1 == Waiting ==> SleepsOn(Next(s, e), side, t)
  {}
}
