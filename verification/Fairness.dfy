// The promises of the two fair strategies over whole runs.
module Fairness {
  import opened WaitQueues
  import opened LockModel
  import opened Ledger
  import opened Invariant
  import opened Preservation
  import opened Refinement
  import opened Seating
  import opened Schedules

  predicate IsFair(s: State) {
    s.cfg.strategy.ReaderPhaseFair? || s.cfg.strategy.StrictFair?
  }

  // ---- Phase handover ----

  // Waiting reader p, with ticket k, belongs to the open phase and no writer is active.
  predicate InPhase(s: State, p: ThreadId, k: nat) {
    && IsFair(s) && !HasWriter(s) && s.readersTurn
    && Inside(s, Read, p) && Ticket(s, Read, p) == k
    && (s.cfg.strategy.StrictFair? ==> k <= s.cutoff)
  }

  // The phase fields of s' still cover a ticket that those of s covered.
  predicate Covers(s: State, s': State) {
    s'.readersTurn && (s.cfg.strategy.StrictFair? ==> s'.cutoff >= s.cutoff)
  }

  lemma InPhaseBusy(s: State, p: ThreadId, k: nat)
    requires LedgerOK(s) && PhaseCount(s) && InPhase(s, p, k)
    ensures PhaseBusy(s)
  {
    ListedWaits(s.read);
    if s.cfg.strategy.StrictFair? {
      assert p in Reserved(s.read.room, s.cutoff);
    }
  }

  lemma BusyFinishCovers(s: State)
    requires PhaseBusy(s)
    ensures Covers(s, FinishOrContinue(s))
  {}

  // Opening a phase takes in every reader inside the wait loop.
  lemma OpenedPhase(s: State, p: ThreadId)
    requires LedgerOK(s) && IsFair(s) && !HasWriter(s) && Inside(s, Read, p)
    ensures InPhase(StartReaderPhase(s), p, Ticket(s, Read, p))
  {
    ListedWaits(s.read);
    PhasesQuiet(s);
  }

  lemma WakingWriterKeepsPhase(s: State, p: ThreadId, k: nat)
    requires RoomsOpen(s) && InPhase(s, p, k)
    ensures InPhase(WakeWriter(s), p, k)
  {}

  // `_on_writer_abort` opens a phase exactly if readers are listed.
  lemma WriterAbortCases(s: State)
    requires LedgerOK(s) && IsFair(s)
    ensures if s.read.room.queue != [] then OnWriterAbort(s) == StartReaderPhase(s)
            else OnWriterAbort(s) == s || OnWriterAbort(s) == WakeWriter(s)
  {
    ListedWaits(s.read);
  }

  lemma WriterAbortCovers(s: State, p: ThreadId, k: nat)
    requires LedgerOK(s) && InPhase(s, p, k)
    ensures InPhase(OnWriterAbort(s), p, k)
  {
    WriterAbortCases(s);
    OpenedPhase(s, p);
    LedgerRooms(s);
    WakingWriterKeepsPhase(s, p, k);
    hide LedgerOK, OnWriterAbort, StartReaderPhase, WakeWriter;
  }

  lemma LeaveKeepsPhase(s: State, t: ThreadId, side: Side, p: ThreadId, k: nat)
    requires Inv(s) && Inside(s, side, t) && StatusOf(s, side, t).Signalled?
    requires InPhase(s, p, k) && !(t == p && side == Read)
    ensures InPhase(Leave(s, t, side), p, k) && LedgerOK(Leave(s, t, side))
    ensures side == Write || s.cfg.strategy.ReaderPhaseFair? ==> PhaseCount(Leave(s, t, side))
    ensures side == Write ==> PhaseOK(Leave(s, t, side))
  {
    LeaveLedger(s, t, side);
  }

  lemma ReturnedSlotKeepsPhase(s: State, t: ThreadId, p: ThreadId, k: nat)
    requires Inv(s) && Inside(s, Read, t) && StatusOf(s, Read, t).Signalled?
    requires s.cfg.strategy.StrictFair? && InPhase(s, p, k) && t != p
    ensures PhaseBusy(ReturnSlot(s, t)) && Abandon(s, t, Read) == WakeWaitingReader(ReturnSlot(s, t))
    ensures InPhase(ReturnSlot(s, t), p, k) && RoomsOpen(ReturnSlot(s, t))
  {
    hide LedgerOK, PhaseOK, ReadersBlocked, WritersAwake, PhaseCount, WakeWaitingReader, FinishOrContinue;
    ReturnSlotOK(s, t);
    LedgerRooms(ReturnSlot(s, t));
    assert InPhase(ReturnSlot(s, t), p, k);
    InPhaseBusy(ReturnSlot(s, t), p, k);
  }

  lemma WakingKeepsPhase(s: State, p: ThreadId, k: nat)
    requires RoomsOpen(s) && InPhase(s, p, k)
    ensures InPhase(WakeWaitingReader(s), p, k)
  {
    WakesQuiet(s);
  }

  lemma AbandonKeepsPhase(s: State, t: ThreadId, side: Side, p: ThreadId, k: nat)
    requires Inv(s) && Inside(s, side, t) && StatusOf(s, side, t).Signalled?
    requires InPhase(s, p, k) && !(t == p && side == Read)
    ensures InPhase(Abandon(s, t, side), p, k)
  {
    hide LedgerOK, PhaseOK, ReadersBlocked, WritersAwake, PhaseCount, OnWriterAbort, InPhase, WakeWaitingReader;
    LeaveKeepsPhase(s, t, side, p, k);
    InPhaseFair(s, p, k);
    var left := Leave(s, t, side);
    if side == Write {
      WriterAbortCovers(left, p, k);
    } else if s.cfg.strategy.StrictFair? {
      ReturnedSlotKeepsPhase(s, t, p, k);
      WakingKeepsPhase(ReturnSlot(s, t), p, k);
    } else {
      InPhaseBusy(left, p, k);
      LedgerRooms(left);
      WakingKeepsPhase(left, p, k);
    }
  }

  lemma InPhaseFair(s: State, p: ThreadId, k: nat)
    requires InPhase(s, p, k)
    ensures IsFair(s) && s.readersTurn
  {}

  lemma GrantKeepsPhase(s: State, t: ThreadId, p: ThreadId, k: nat)
    requires Inv(s) && Inside(s, Read, t) && StatusOf(s, Read, t).Signalled?
    requires InPhase(s, p, k) && t != p
    ensures InPhase(GrantWaiting(s, t, Read), p, k)
  {
    GrantWaitingQuiet(s, t);
  }

  lemma LastReaderKeepsPhase(s: State, p: ThreadId, k: nat)
    requires LedgerOK(s) && PhaseCount(s) && InPhase(s, p, k)
    ensures InPhase(AfterLastReader(s), p, k)
  {
    InPhaseBusy(s, p, k);
    BusyFinishCovers(s);
    AftersQuiet(s);
  }

  lemma WriteGuardShut(s: State, t: ThreadId, p: ThreadId, k: nat)
    requires Inv(s) && InPhase(s, p, k)
    ensures !CanWrite(s, t)
  {
    InPhaseBusy(s, p, k);
  }

  lemma LoopTurnKeepsPhase(s: State, t: ThreadId, side: Side, p: ThreadId, k: nat)
    requires Inv(s) && Inside(s, side, t) && StatusOf(s, side, t).Signalled?
    requires InPhase(s, p, k) && Inside(LoopTurn(s, t, side), Read, p)
    ensures InPhase(LoopTurn(s, t, side), p, k)
  {
    WriteGuardShut(s, t, p, k);
    if CanAcquire(s, t, side, true, Some(Ticket(s, side, t))) {
      GrantWaitingSeats(s, t, side, Read);
      assert p in Seats(GrantWaiting(s, t, side), Read);
      GrantKeepsPhase(s, t, p, k);
    }
  }

  lemma ArriveKeepsPhase(s: State, e: Event, p: ThreadId, k: nat)
    requires Inv(s) && Enabled(s, e) && e.Arrive? && InPhase(s, p, k)
    ensures InPhase(Next(s, e), p, k)
  {
    WriteGuardShut(s, e.t, p, k);
    if e.side == Write && UpgradeRefused(s, e.t) {
    } else if CanAcquire(s, e.t, e.side, false, None) {
      AcquireFastQuiet(s, e.t);
    } else if e.blocking {
      EnterInv(s, e.t, e.side);
      EnterStillBlocked(s, e.t, e.side);
    }
  }

  lemma LeavingKeepsPhase(s: State, e: Event, p: ThreadId, k: nat)
    requires Inv(s) && Enabled(s, e) && (e.Expire? || e.Abort?) && InPhase(s, p, k)
    requires Inside(Next(s, e), Read, p)
    ensures InPhase(Next(s, e), p, k)
  {
    hide LedgerOK, PhaseOK, ReadersBlocked, WritersAwake, GrantWaiting, Abandon, CanRead, CanWrite;
    StepSeats(s, e, Read);
    assert p in Seats(Next(s, e), Read);
    RouseInv(s, e.t, e.side);
    var awake := Rouse(s, e.t, e.side);
    assert InPhase(awake, p, k);
    WriteGuardShut(awake, e.t, p, k);
    if Exec(s, e).1 == Granted {
      GrantKeepsPhase(awake, e.t, p, k);
    } else {
      AbandonKeepsPhase(awake, e.t, e.side, p, k);
    }
  }

  lemma ReleaseKeepsPhase(s: State, e: Event, p: ThreadId, k: nat)
    requires Inv(s) && Enabled(s, e) && e.Release? && InPhase(s, p, k)
    ensures InPhase(Next(s, e), p, k)
  {
    var s1 := if e.side == Write && s.marker == Some(e.t) then s.(marker := None) else s;
    UnmarkInv(s);
    if ReleaseReadCore(s1, e.t).Some? {
      ReaderGoneLedger(s1, e.t);
      LastReaderKeepsPhase(ReaderGone(s1, e.t), p, k);
    }
    assert ReleaseWriteCore(s1, e.t) == None;
  }

  lemma InPhaseStep(s: State, e: Event, p: ThreadId, k: nat)
    requires Inv(s) && Enabled(s, e) && InPhase(s, p, k)
    requires Inside(Next(s, e), Read, p) && Ticket(Next(s, e), Read, p) == k
    ensures InPhase(Next(s, e), p, k)
  {
    match e
    case Arrive(_, _, _) => ArriveKeepsPhase(s, e, p, k);
    case Resume(t, side) => LoopTurnKeepsPhase(s, t, side, p, k);
    case Expire(_, _) => LeavingKeepsPhase(s, e, p, k);
    case Cancel(_, _) =>
    case Abort(_, _) => LeavingKeepsPhase(s, e, p, k);
    case ResetMarker(_) =>
    case Release(_, _) => ReleaseKeepsPhase(s, e, p, k);
    case Downgrade(_) =>
  }

  lemma WriterAbortOpens(s: State, p: ThreadId)
    requires LedgerOK(s) && IsFair(s) && !HasWriter(s) && IsParked(s.read.room, p)
    ensures InPhase(OnWriterAbort(s), p, Ticket(s, Read, p))
  {
    assert p in s.read.room.queue;
    WriterAbortCases(s);
    OpenedPhase(s, p);
    hide LedgerOK, OnWriterAbort, StartReaderPhase;
  }

  lemma FullReleaseIs(s: State, e: Event)
    requires Inv(s) && Enabled(s, e) && e.Release? && HasWriter(s) && !HasWriter(Next(s, e))
    ensures s.cfg.reentrant ==> s.clearing == {}
    ensures Next(s, e) == OnWriterAbort(WriterGone(s)) || Next(s, e) == OnWriterAbort(WriterGone(s.(marker := None)))
  {
    var s1 := if e.side == Write && s.marker == Some(e.t) then s.(marker := None) else s;
    if ReleaseReadCore(s1, e.t).Some? {
      UnmarkInv(s);
      ReaderGoneLedger(s1, e.t);
      AftersQuiet(ReaderGone(s1, e.t));
    }
  }

  // Giving up the last write hold opens a phase for every reader parked at that moment.
  lemma FullReleaseOpensPhase(s: State, e: Event, p: ThreadId)
    requires Inv(s) && Enabled(s, e) && e.Release? && IsFair(s)
    requires HasWriter(s) && !HasWriter(Next(s, e)) && IsParked(s.read.room, p)
    ensures InPhase(Next(s, e), p, Ticket(s, Read, p))
  {
    hide Inv, Exec, OnWriterAbort, LedgerOK, InPhase;
    FullReleaseIs(s, e);
    UnmarkInv(s);
    LedgerOf(s);
    LedgerOf(s.(marker := None));
    WriterGoneLedger(s);
    WriterGoneLedger(s.(marker := None));
    var s1 := if Next(s, e) == OnWriterAbort(WriterGone(s)) then s else s.(marker := None);
    WriterAbortOpens(WriterGone(s1), p);
  }

  // So does a downgrade.
  lemma DowngradeOpensPhase(s: State, t: ThreadId, p: ThreadId)
    requires Inv(s) && Enabled(s, Downgrade(t)) && IsFair(s)
    requires DowngradeCore(s, t).Some? && Inside(s, Read, p)
    ensures InPhase(Next(s, Downgrade(t)), p, Ticket(s, Read, p))
  {
    hide LedgerOK, PhaseOK, PhaseCount, ReadersBlocked, WritersAwake, StartReaderPhase, DowngradeCore;
    DowngradedOK(s, t);
    OpenedPhase(Downgraded(s, t), p);
  }


  lemma WritingEndsInPhase(s: State, e: Event, p: ThreadId)
    requires Inv(s) && Enabled(s, e) && IsFair(s)
    requires HasWriter(s) && !HasWriter(Next(s, e)) && IsParked(s.read.room, p)
    ensures InPhase(Next(s, e), p, Ticket(s, Read, p))
  {
    hide Inv, Exec, InPhase, DowngradeCore;
    WritingEndsExactlyWhen(s, e);
    match e
    case Release(_, _) => FullReleaseOpensPhase(s, e, p);
    case Downgrade(t) =>
      DowngradeOutcome(s, t);
      DowngradeMeans(s, t);
      DowngradeOpensPhase(s, t, p);
  }

  lemma DowngradeMeans(s: State, t: ThreadId)
    requires Enabled(s, Downgrade(t))
    ensures Exec(s, Downgrade(t)).1 == Done <==> DowngradeCore(s, t).Some?
  {}

  // Main result: after a full write release or a downgrade, no write is granted to anyone
  // while some reader that was parked at that moment is still waiting.
  lemma {:induction false} PhaseHandover(ss: seq<State>, es: seq<Event>, i: nat, j: nat, p: ThreadId)
    requires Run(ss, es) && Inv(ss[0]) && IsFair(ss[0]) && i < j < |ss|
    requires HasWriter(ss[i]) && !HasWriter(ss[i + 1])
    requires IsParked(ss[i].read.room, p)
    requires Inside(ss[j], Read, p) && Ticket(ss[j], Read, p) == Ticket(ss[i], Read, p)
    ensures InPhase(ss[j], p, Ticket(ss[i], Read, p))
    ensures forall k :: i < k <= j ==> !HasWriter(ss[k])
    ensures Tickets(ss[j], Read) >= Ticket(ss[i], Read, p)
  {
    hide Inv, Exec, InPhase;
    RunInv(ss, es, i);
    TicketBound(ss[i], p);
    if j == i + 1 {
      WritingEndsInPhase(ss[i], es[i], p);
      StepSeats(ss[i], es[i], Read);
    } else {
      RunInv(ss, es, j - 1);
      TicketsGrow(ss, es, i, j - 1);
      SeatKept(ss[j - 1], es[j - 1], p, Ticket(ss[i], Read, p), Read);
      PhaseHandover(ss, es, i, j - 1, p);
      InPhaseStep(ss[j - 1], es[j - 1], p, Ticket(ss[i], Read, p));
      StepSeats(ss[j - 1], es[j - 1], Read);
    }
  }

  lemma TicketBound(s: State, p: ThreadId)
    requires Inv(s) && Inside(s, Read, p)
    ensures Ticket(s, Read, p) <= Tickets(s, Read)
  {}

  lemma {:induction false} TicketsGrow(ss: seq<State>, es: seq<Event>, i: nat, j: nat)
    requires Run(ss, es) && Inv(ss[0]) && i <= j < |ss|
    ensures Tickets(ss[j], Read) >= Tickets(ss[i], Read)
  {
    hide Inv, Exec, Tickets;
    if i < j {
      TicketsGrow(ss, es, i, j - 1);
      RunInv(ss, es, j - 1);
      StepSeats(ss[j - 1], es[j - 1], Read);
    }
  }

  // ---- Strict-fair admission ----

  // A reader that held nothing is admitted.
  predicate Admits(s: State, e: Event)
    requires Enabled(s, e)
  {
    ActionOf(s, e).TakeRead? && !Holds(s, e.t)
  }

  // A waiting reader of the open phase gives up.
  predicate ForfeitsSlot(s: State, e: Event)
    requires Enabled(s, e)
  {
    && (e.Expire? || e.Abort?) && Exec(s, e).1 == Abandoned && e.side == Read
    && s.readersTurn && Ticket(s, Read, e.t) <= s.cutoff
  }

  // A waiting writer is cancelled, or its time is up while its guard is closed.
  predicate WriterGivesUp(s: State, e: Event)
    requires Enabled(s, e)
  {
    match e
    case Abort(_, Write) => true
    case Expire(t, Write) => !CanWrite(s, t)
    case _ => false
  }

  lemma GivingUpAbandons(s: State, e: Event)
    requires Inv(s) && Enabled(s, e)
    ensures WriterGivesUp(s, e) <==> (e.Expire? || e.Abort?) && e.side == Write && Exec(s, e).1 == Abandoned
  {
    if e.Expire? {
      RouseGuards(s, e.t, e.side);
    }
  }

  // A write is granted, fully released, downgraded or abandoned.
  predicate WriterMoves(s: State, e: Event)
    requires Enabled(s, e)
  {
    HasWriter(s) != HasWriter(Next(s, e)) || WriterGivesUp(s, e)
  }

  // The step neither opens a phase nor moves the cutoff of the open one.
  predicate NotReopened(s: State, s': State) {
    s'.readersTurn ==> s.readersTurn && s'.cutoff == s.cutoff && s'.pending <= s.pending
  }

  lemma LastReaderPending(s: State)
    requires LedgerOK(s) && PhaseCount(s) && s.cfg.strategy.StrictFair?
    ensures AfterLastReader(s).pending == s.pending && NotReopened(s, AfterLastReader(s))
  {}

  lemma FinishPending(s: State)
    requires PhaseCount(s) && s.cfg.strategy.StrictFair?
    ensures FinishOrContinue(s).pending == s.pending && NotReopened(s, FinishOrContinue(s))
    ensures WakeWaitingReader(s).pending == s.pending && NotReopened(s, WakeWaitingReader(s))
  {}

  lemma AbandonPending(s: State, t: ThreadId)
    requires Inv(s) && Inside(s, Read, t) && StatusOf(s, Read, t).Signalled? && s.cfg.strategy.StrictFair?
    ensures Abandon(s, t, Read).pending ==
            s.pending - (if s.readersTurn && Ticket(s, Read, t) <= s.cutoff then 1 else 0)
    ensures NotReopened(s, Abandon(s, t, Read))
  {
    hide FinishOrContinue, WakeWaitingReader, LedgerOK, ReadersBlocked, WritersAwake;
    ReturnSlotOK(s, t);
    LeaveReserved(s, t);
    FinishPending(ReturnSlot(s, t));
  }

  lemma GrantPending(s: State, t: ThreadId)
    requires Inv(s) && Inside(s, Read, t) && StatusOf(s, Read, t).Signalled? && s.cfg.strategy.StrictFair?
    requires CanRead(s, t, true, Some(Ticket(s, Read, t))) && s.write.waiting > 0
    ensures GrantWaiting(s, t, Read).pending == s.pending - 1 && NotReopened(s, GrantWaiting(s, t, Read))
    ensures !Holds(s, t)
  {
    LedgerRooms(s);
    GrantWaitingQuiet(s, t);
  }

  lemma ArriveAdmission(s: State, e: Event)
    requires Inv(s) && Enabled(s, e) && e.Arrive? && s.cfg.strategy.StrictFair? && s.write.waiting > 0
    ensures Next(s, e).pending == s.pending && !Admits(s, e) && NotReopened(s, Next(s, e))
  {
    if Admits(s, e) {
      ReadGrantGuard(s, e);
    }
    if !CanAcquire(s, e.t, e.side, false, None) && !(e.side == Write && UpgradeRefused(s, e.t)) {
      EnterStillBlocked(s, e.t, e.side);
    }
  }

  lemma WaiterAdmission(s: State, e: Event)
    requires Inv(s) && Enabled(s, e) && (e.Resume? || e.Expire? || e.Abort?)
    requires s.cfg.strategy.StrictFair? && s.write.waiting > 0 && !WriterMoves(s, e)
    ensures Next(s, e).pending ==
            s.pending - (if Admits(s, e) then 1 else 0) - (if ForfeitsSlot(s, e) then 1 else 0)
    ensures NotReopened(s, Next(s, e))
  {
    hide LedgerOK, PhaseOK, ReadersBlocked, WritersAwake, GrantWaiting, Abandon, CanRead, CanWrite, View;
    RouseInv(s, e.t, e.side);
    GivingUpAbandons(s, e);
    RouseGuards(s, e.t, e.side);
    var awake := if e.Resume? then s else Rouse(s, e.t, e.side);
    if Exec(s, e).1 == Granted {
      WaiterGrantAdmission(s, awake, e);
    } else if Exec(s, e).1 == Abandoned {
      AbandonPending(awake, e.t);
    }
  }

  lemma WaiterGrantAdmission(s: State, awake: State, e: Event)
    requires Inv(s) && Enabled(s, e) && (e.Resume? || e.Expire?) && Exec(s, e).1 == Granted
    requires s.cfg.strategy.StrictFair? && s.write.waiting > 0 && !WriterMoves(s, e)
    requires Inv(awake) && awake == (if e.Resume? then s else Rouse(s, e.t, e.side))
    requires Inside(awake, e.side, e.t) && StatusOf(awake, e.side, e.t).Signalled?
    requires Ticket(awake, e.side, e.t) == Ticket(s, e.side, e.t)
    ensures e.side == Read && Admits(s, e) && Next(s, e).pending == s.pending - 1
    ensures NotReopened(s, Next(s, e))
  {
    if e.side == Read {
      GrantPending(awake, e.t);
    } else {
      WaiterHasNothing(s, e);
    }
  }

  // A granted waiter of the write side makes the lock get a writer.
  lemma WaiterHasNothing(s: State, e: Event)
    requires Inv(s) && Enabled(s, e) && (e.Resume? || e.Expire?) && Exec(s, e).1 == Granted && e.side == Write
    ensures WriterMoves(s, e)
  {
    StepInv(s, e);
    StepRefines(s, e);
    ViewExclusive(s);
    ViewExclusive(Next(s, e));
  }

  // A write release that leaves the lock with its writer only lowers the depth.
  lemma InnerRelease(s: State, t: ThreadId)
    requires Inv(s) && ReleaseWriteCore(s, t).Some? && HasWriter(ReleaseWriteCore(s, t).value) == HasWriter(s)
    ensures ReleaseWriteCore(s, t).value == s.(writeCount := s.writeCount - 1)
  {
    AbortsQuiet(WriterGone(s), 0);
  }

  lemma ReadReleasePending(s: State, t: ThreadId)
    requires Inv(s) && s.cfg.strategy.StrictFair? && ReleaseReadCore(s, t).Some?
    ensures ReleaseReadCore(s, t).value.pending == s.pending && NotReopened(s, ReleaseReadCore(s, t).value)
  {
    ReaderGoneLedger(s, t);
    LastReaderPending(ReaderGone(s, t));
  }

  lemma ReleaseAdmission(s: State, e: Event)
    requires Inv(s) && Enabled(s, e) && e.Release? && s.cfg.strategy.StrictFair? && !WriterMoves(s, e)
    ensures Next(s, e).pending == s.pending && !Admits(s, e) && NotReopened(s, Next(s, e))
  {
    hide LedgerOK, PhaseOK, ReadersBlocked, WritersAwake, ReleaseReadCore, ReleaseWriteCore;
    var s1 := if e.side == Write && s.marker == Some(e.t) then s.(marker := None) else s;
    UnmarkInv(s);
    if ReleaseReadCore(s1, e.t).Some? {
      ReadReleasePending(s1, e.t);
    }
    if ReleaseWriteCore(s1, e.t).Some? && HasWriter(ReleaseWriteCore(s1, e.t).value) == HasWriter(s1) {
      InnerRelease(s1, e.t);
    }
  }

  // One step: pending drops by exactly the reader that was admitted or gave up.
  lemma AdmissionStep(s: State, e: Event)
    requires Inv(s) && Enabled(s, e) && s.cfg.strategy.StrictFair?
    requires s.write.waiting > 0 && !WriterMoves(s, e)
    ensures Next(s, e).pending ==
            s.pending - (if Admits(s, e) then 1 else 0) - (if ForfeitsSlot(s, e) then 1 else 0)
    ensures NotReopened(s, Next(s, e))
  {
    match e
    case Arrive(_, _, _) => ArriveAdmission(s, e);
    case Resume(_, _) => WaiterAdmission(s, e);
    case Expire(_, _) => WaiterAdmission(s, e);
    case Cancel(_, _) =>
    case Abort(_, _) => WaiterAdmission(s, e);
    case ResetMarker(_) =>
    case Release(_, _) => ReleaseAdmission(s, e);
    case Downgrade(t) => DowngradeMoves(s, t);
  }

  lemma DowngradeMoves(s: State, t: ThreadId)
    requires Inv(s) && Enabled(s, Downgrade(t)) && !WriterMoves(s, Downgrade(t))
    ensures Next(s, Downgrade(t)) == s && !Admits(s, Downgrade(t))
  {
    if DowngradeCore(s, t).Some? {
      DowngradedOK(s, t);
      AftersQuiet(Downgraded(s, t));
    }
  }

  // Readers admitted past the waiting writer plus reserved readers that gave up.
  ghost function Passed(ss: seq<State>, es: seq<Event>, j: nat): nat
    requires Run(ss, es) && j <= |es|
  {
    if j == 0 then 0
    else
      Passed(ss, es, j - 1)
      + (if Admits(ss[j - 1], es[j - 1]) then 1 else 0)
      + (if ForfeitsSlot(ss[j - 1], es[j - 1]) then 1 else 0)
  }

  // Main result: over any stretch in which some writer waits and no write is granted,
  // released, downgraded or abandoned, the readers that pass are exactly the drop of the
  // pending counter, so at most its value at the start, however many arrive.
  lemma {:induction false} StrictFairAdmission(ss: seq<State>, es: seq<Event>, j: nat)
    requires Run(ss, es) && Inv(ss[0]) && ss[0].cfg.strategy.StrictFair? && j <= |es|
    requires forall k :: 0 <= k < j ==> ss[k].write.waiting > 0 && !WriterMoves(ss[k], es[k])
    ensures Passed(ss, es, j) == ss[0].pending - ss[j].pending
    ensures Passed(ss, es, j) <= ss[0].pending
  {
    hide Inv, Exec, WriterMoves, Admits, ForfeitsSlot;
    if j > 0 {
      StrictFairAdmission(ss, es, j - 1);
      RunInv(ss, es, j - 1);
      AdmissionStep(ss[j - 1], es[j - 1]);
    }
    RunInv(ss, es, j);
    PendingNatural(ss[j]);
  }

  lemma PendingNatural(s: State)
    requires Inv(s)
    ensures s.pending >= 0
  {}

  // ---- When a late reader overtakes a waiting writer ----

  // The step opens a phase for reader p: the lock loses its writer, or a writer gives up
  // while the lock has none, and readers are listed; a downgrade does not look at the list.
  // A phase opened under a writer, by another writer giving up, also counts once that
  // writer is gone.
  predicate LetsIn(s: State, e: Event, p: ThreadId)
    requires Enabled(s, e) && Inside(s, Read, p)
  {
    if HasWriter(s) then
      EndsWriting(s, e) &&
      (e.Downgrade? || s.read.room.queue != [] || IsReserved(s, true, Some(Ticket(s, Read, p))))
    else WriterGivesUp(s, e) && s.read.room.queue != []
  }

  lemma InPhaseMayRead(s: State, p: ThreadId, k: nat)
    requires Inv(s) && InPhase(s, p, k)
    ensures CanRead(s, p, true, Some(k))
  {
    InPhaseBusy(s, p, k);
    WaiterGuards(s, p);
  }

  lemma WriterShutsOut(s: State, p: ThreadId, k: nat)
    requires Inv(s) && HasWriter(s) && Inside(s, Read, p)
    ensures !CanRead(s, p, true, Some(k))
  {}

  // While a writer waits and none is active, a waiting reader is let in exactly if it has a
  // reserved slot.
  lemma OnlyReserved(s: State, p: ThreadId, k: nat)
    requires Inv(s) && s.cfg.strategy.StrictFair? && !HasWriter(s)
    requires Inside(s, Read, p) && s.write.waiting > 0
    ensures CanRead(s, p, true, Some(k)) <==> IsReserved(s, true, Some(k))
  {
    WaiterGuards(s, p);
  }

  // `_on_writer_abort` opens a phase if readers are listed, and else keeps the reservations.
  lemma WriterAbortAdmits(s: State, p: ThreadId)
    requires LedgerOK(s) && PhaseOK(s) && s.cfg.strategy.StrictFair? && !HasWriter(s) && Inside(s, Read, p)
    requires OnWriterAbort(s).write.waiting > 0
    ensures CanRead(OnWriterAbort(s), p, true, Some(Ticket(s, Read, p))) <==>
            s.read.room.queue != [] || IsReserved(s, true, Some(Ticket(s, Read, p)))
  {
    WriterAbortSettles(s);
    WriterAbortCases(s);
    OpenedPhase(s, p);
    if s.read.room.queue != [] {
      InPhaseMayRead(OnWriterAbort(s), p, Ticket(s, Read, p));
    } else {
      WakingWriterKeepsReaders(s);
      OnlyReserved(OnWriterAbort(s), p, Ticket(s, Read, p));
    }
    hide LedgerOK, PhaseOK, ReadersBlocked, WritersAwake, OnWriterAbort, StartReaderPhase, CanRead;
  }

  lemma WakingWriterKeepsReaders(s: State)
    ensures WakeWriter(s).read == s.read && HasWriter(WakeWriter(s)) == HasWriter(s)
  {}

  lemma GivingUpAdmits(s: State, e: Event, p: ThreadId)
    requires Inv(s) && Enabled(s, e) && s.cfg.strategy.StrictFair? && !HasWriter(s)
    requires Inside(s, Read, p) && WriterGivesUp(s, e) && Next(s, e).write.waiting > 0
    requires !IsReserved(s, true, Some(Ticket(s, Read, p)))
    ensures CanRead(Next(s, e), p, true, Some(Ticket(s, Read, p))) <==> s.read.room.queue != []
  {
    hide PhaseOK, ReadersBlocked, WritersAwake, OnWriterAbort, CanRead;
    GivingUpAbandons(s, e);
    RouseInv(s, e.t, Write);
    var awake := Rouse(s, e.t, Write);
    LeaveLedger(awake, e.t, Write);
    LeftWriter(awake, e.t);
    WriterAbortAdmits(Leave(awake, e.t, Write), p);
  }

  lemma LeftWriter(s: State, t: ThreadId)
    requires Inv(s) && Inside(s, Write, t)
    ensures PhaseOK(Leave(s, t, Write))
  {}

  lemma ReleaseAdmits(s: State, e: Event, p: ThreadId)
    requires Inv(s) && Enabled(s, e) && e.Release? && s.cfg.strategy.StrictFair?
    requires HasWriter(s) && !HasWriter(Next(s, e)) && Inside(s, Read, p) && Next(s, e).write.waiting > 0
    ensures CanRead(Next(s, e), p, true, Some(Ticket(s, Read, p))) <==>
            s.read.room.queue != [] || IsReserved(s, true, Some(Ticket(s, Read, p)))
  {
    hide Exec, OnWriterAbort, CanRead, ReadersBlocked, WritersAwake;
    FullReleaseIs(s, e);
    UnmarkInv(s);
    var s1 := if Next(s, e) == OnWriterAbort(WriterGone(s)) then s else s.(marker := None);
    WriterGoneLedger(s1);
    WriterAbortAdmits(WriterGone(s1), p);
  }

  lemma WritingEndAdmits(s: State, e: Event, p: ThreadId)
    requires Inv(s) && Enabled(s, e) && s.cfg.strategy.StrictFair? && HasWriter(s) && !HasWriter(Next(s, e))
    requires Inside(s, Read, p) && Next(s, e).write.waiting > 0
    ensures CanRead(Next(s, e), p, true, Some(Ticket(s, Read, p))) <==> LetsIn(s, e, p)
  {
    hide Inv, Exec, InPhase, DowngradeCore, CanRead;
    StepInv(s, e);
    WritingEndsExactlyWhen(s, e);
    match e
    case Release(_, _) => ReleaseAdmits(s, e, p);
    case Downgrade(t) =>
      DowngradeOutcome(s, t);
      DowngradeMeans(s, t);
      DowngradeOpensPhase(s, t, p);
      InPhaseMayRead(Next(s, e), p, Ticket(s, Read, p));
  }

  lemma OtherStepsAdmitNobody(s: State, e: Event, p: ThreadId)
    requires Inv(s) && Enabled(s, e) && s.cfg.strategy.StrictFair? && !HasWriter(s) && !HasWriter(Next(s, e))
    requires Inside(s, Read, p) && s.write.waiting > 0 && !WriterGivesUp(s, e)
    requires Inside(Next(s, e), Read, p) && Next(s, e).write.waiting > 0
    requires !IsReserved(s, true, Some(Ticket(s, Read, p)))
    ensures !CanRead(Next(s, e), p, true, Some(Ticket(s, Read, p)))
  {
    hide Inv, Exec, CanRead;
    StepInv(s, e);
    AdmissionStep(s, e);
    OnlyReserved(Next(s, e), p, Ticket(s, Read, p));
  }

  // The strict-fair documentation promises that late readers cannot cut in front of a
  // queued writer.  They can: while a writer keeps waiting, a step lets a waiting reader in
  // that was shut out exactly when it opens a phase, and a phase is opened for every reader
  // waiting at that moment, whether it queued up before that writer or after it.
  lemma LateReadersOvertakeExactlyWhen(s: State, e: Event, p: ThreadId)
    requires Reachable(s) && Enabled(s, e) && s.cfg.strategy.StrictFair? && s.write.waiting > 0
    requires Inside(s, Read, p) && !CanRead(s, p, true, Some(Ticket(s, Read, p)))
    requires Inside(Next(s, e), Read, p) && Next(s, e).write.waiting > 0
    ensures CanRead(Next(s, e), p, true, Some(Ticket(s, Read, p))) <==> LetsIn(s, e, p)
  {
    hide Inv, Exec, CanRead;
    ReachableInv(s);
    StepInv(s, e);
    if HasWriter(Next(s, e)) {
      WriterShutsOut(Next(s, e), p, Ticket(s, Read, p));
      WriterStays(s, e);
    } else if HasWriter(s) {
      WritingEndAdmits(s, e, p);
    } else {
      OnlyReserved(s, p, Ticket(s, Read, p));
      if WriterGivesUp(s, e) {
        GivingUpAdmits(s, e, p);
      } else {
        OtherStepsAdmitNobody(s, e, p);
      }
    }
  }

  lemma WriterStays(s: State, e: Event)
    requires Inv(s) && Enabled(s, e) && HasWriter(Next(s, e))
    ensures HasWriter(s) ==> !EndsWriting(s, e)
    ensures WriterGivesUp(s, e) ==> HasWriter(s)
  {
    hide Inv, Exec;
    if HasWriter(s) {
      WritingEndsExactlyWhen(s, e);
    } else if WriterGivesUp(s, e) {
      GivingUpAbandons(s, e);
      StepInv(s, e);
      StepRefines(s, e);
      ViewExclusive(s);
      ViewExclusive(Next(s, e));
    }
  }

  // ---- Two schedules in which it happens ----

  // Thread 0 writes; then writer 1 and reader 2 queue up, in this order.
  function BehindWriter(cfg: Config): State {
    FirstWriter(cfg).(
      read := Proxy(1, 1, Room([2], map[2 := Waiter(1, Parked)])),
      write := Proxy(1, 1, Room([1], map[1 := Waiter(1, Parked)])))
  }

  lemma BehindWriterReachable(cfg: Config)
    ensures Reachable(BehindWriter(cfg))
  {
    var s := FirstWriter(cfg);
    var s' := s.(write := Proxy(1, 1, Room([1], map[1 := Waiter(1, Parked)])));
    FirstWriterReachable(cfg);
    assert Next(s, Arrive(1, Write, true)) == s';
    assert Next(s', Arrive(2, Read, true)) == BehindWriter(cfg);
    ReachableStep(s, Arrive(1, Write, true));
    ReachableStep(s', Arrive(2, Read, true));
  }

  // Writer 0 releases, and reader 2 may enter, while writer 1 queued up before it and must
  // wait.
  lemma ReleaseLetsLateReaderIn(cfg: Config)
    requires cfg.strategy.StrictFair?
    ensures var s := BehindWriter(cfg); var e := Release(0, Write);
            && Reachable(s) && Enabled(s, e) && Inside(Next(s, e), Write, 1) && Inside(Next(s, e), Read, 2)
            && CanRead(Next(s, e), 2, true, Some(1)) && !CanWrite(Next(s, e), 1)
  {
    var s := BehindWriter(cfg);
    var e := Release(0, Write);
    BehindWriterReachable(cfg);
    ReachableInv(s);
    assert EndsWriting(s, e) && Ticket(s, Read, 2) == 1;
    hide Inv, Exec, BehindWriter, CanRead, CanWrite, InPhase;
    WritingEndsExactlyWhen(s, e);
    WritingEndsInPhase(s, e, 2);
    StepInv(s, e);
    InPhaseMayRead(Next(s, e), 2, 1);
    WriteGuardShut(Next(s, e), 1, 2, 1);
    OthersKeepSeats(s, e, 1, Write);
    OthersKeepSeats(s, e, 2, Read);
  }

  // Thread 0 reads; then writer 1, reader 2 and writer 3 queue up, in this order.
  function QueuedUp(cfg: Config): State {
    Init(cfg).(
      readersActive := 1, readerOwners := map[0 := 1],
      read := Proxy(1, 1, Room([2], map[2 := Waiter(1, Parked)])),
      write := Proxy(2, 2, Room([1, 3], map[1 := Waiter(1, Parked), 3 := Waiter(2, Parked)])))
  }

  lemma QueuedUpReachable(cfg: Config)
    requires cfg.strategy.StrictFair?
    ensures Reachable(QueuedUp(cfg))
  {
    var s1 := Init(cfg).(readersActive := 1, readerOwners := map[0 := 1]);
    var s2 := s1.(write := Proxy(1, 1, Room([1], map[1 := Waiter(1, Parked)])));
    var s3 := s2.(read := Proxy(1, 1, Room([2], map[2 := Waiter(1, Parked)])));
    InitReachable(cfg);
    assert Next(Init(cfg), Arrive(0, Read, true)) == s1;
    ReachableStep(Init(cfg), Arrive(0, Read, true));
    assert Next(s1, Arrive(1, Write, true)) == s2;
    ReachableStep(s1, Arrive(1, Write, true));
    LastTwoQueueUp(cfg);
    ReachableStep(s2, Arrive(2, Read, true));
    ReachableStep(s3, Arrive(3, Write, true));
  }

  lemma LastTwoQueueUp(cfg: Config)
    requires cfg.strategy.StrictFair?
    ensures var s3 := QueuedUp(cfg).(write := Proxy(1, 1, Room([1], map[1 := Waiter(1, Parked)])));
            var s2 := s3.(read := NewProxy());
            && Enabled(s2, Arrive(2, Read, true)) && Next(s2, Arrive(2, Read, true)) == s3
            && Enabled(s3, Arrive(3, Write, true)) && Next(s3, Arrive(3, Write, true)) == QueuedUp(cfg)
  {}

  // Writer 3 times out, and reader 2 may now enter although writer 1 queued up before it.
  lemma LateReaderOvertakes(cfg: Config)
    requires cfg.strategy.StrictFair? && cfg.runtime.Threads?
    ensures var s := QueuedUp(cfg); var e := Expire(3, Write);
            && Reachable(s) && Enabled(s, e) && Inside(Next(s, e), Write, 1)
            && !CanRead(s, 2, true, Some(1)) && CanRead(Next(s, e), 2, true, Some(1))
  {
    var s := QueuedUp(cfg);
    var e := Expire(3, Write);
    QueuedUpReachable(cfg);
    ReachableInv(s);
    ThirdTimesOut(cfg);
    hide Inv, Exec, QueuedUp, CanRead;
    OthersKeepSeats(s, e, 1, Write);
    StepInv(s, e);
    SomebodyWaits(Next(s, e), 1);
    GivingUpAdmits(s, e, 2);
  }

  lemma SomebodyWaits(s: State, t: ThreadId)
    requires Inv(s) && Inside(s, Write, t)
    ensures s.write.waiting > 0
  {
    ListedWaits(s.write);
  }

  lemma ThirdTimesOut(cfg: Config)
    requires cfg.strategy.StrictFair? && cfg.runtime.Threads?
    ensures var s := QueuedUp(cfg);
            && Enabled(s, Expire(3, Write)) && WriterGivesUp(s, Expire(3, Write))
            && s.cfg == cfg && !HasWriter(s) && Inside(s, Write, 1)
            && Inside(s, Read, 2) && Ticket(s, Read, 2) == 1 && s.read.room.queue != []
            && !CanRead(s, 2, true, Some(1)) && !IsReserved(s, true, Some(1))
  {}
}
