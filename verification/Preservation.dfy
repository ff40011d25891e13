// Every step of every variant keeps the joint invariant.
module Preservation {
  import opened WaitQueues
  import opened LockModel
  import opened Ledger
  import opened Invariant

  // ---- Moving one caller ----

  lemma EnterInv(s: State, t: ThreadId, side: Side)
    requires Inv(s) && Free(s, t) && !CanAcquire(s, t, side, false, None)
    requires side == Write ==> !UpgradeRefused(s, t)
    ensures Inv(Enter(s, t, side)) && StatusOf(Enter(s, t, side), side, t).Signalled?
  {
    var s' := Enter(s, t, side);
    EnterLedger(s, t, side);
    assert forall u :: IsParked(s'.read.room, u) <==> IsParked(s.read.room, u);
    ReadersFacts(s);
    if side == Read {
      if s.cfg.strategy.StrictFair? && s.readersTurn {
        assert Reserved(s'.read.room, s.cutoff) == Reserved(s.read.room, s.cutoff);
      }
    } else {
      assert t in s'.write.room.inside && !IsParked(s'.write.room, t);
    }
  }

  // The second look at the guard, right after taking a seat, finds it closed again.
  lemma EnterStillBlocked(s: State, t: ThreadId, side: Side)
    requires Inv(s) && Free(s, t) && !CanAcquire(s, t, side, false, None)
    requires side == Write ==> !UpgradeRefused(s, t)
    ensures LoopOutcome(Enter(s, t, side), t, side) == Waiting
  {}

  lemma ParkInv(s: State, t: ThreadId, side: Side)
    requires Inv(s) && Inside(s, side, t) && StatusOf(s, side, t).Signalled?
    requires !CanAcquire(s, t, side, true, Some(Ticket(s, side, t)))
    ensures Inv(Park(s, t, side))
  {
    ParkLedger(s, t, side);
    match side
    case Read => ParkReader(s, t);
    case Write => ParkWriter(s, t);
  }

  lemma ParkReader(s: State, t: ThreadId)
    requires Inv(s) && Inside(s, Read, t) && StatusOf(s, Read, t).Signalled?
    requires !CanRead(s, t, true, Some(Ticket(s, Read, t)))
    ensures PhaseOK(Park(s, t, Read)) && ReadersBlocked(Park(s, t, Read)) && WritersAwake(Park(s, t, Read))
  {
    var s' := Park(s, t, Read);
    assert Reserved(s'.read.room, s.cutoff) == Reserved(s.read.room, s.cutoff);
    if !HasWriter(s) {
      WaiterGuards(s, t);
    }
    assert forall u :: IsParked(s'.read.room, u) ==> u == t || IsParked(s.read.room, u);
  }

  lemma ParkWriter(s: State, t: ThreadId)
    requires Inv(s) && Inside(s, Write, t) && StatusOf(s, Write, t).Signalled? && !CanWrite(s, t)
    ensures PhaseOK(Park(s, t, Write)) && ReadersBlocked(Park(s, t, Write)) && WritersAwake(Park(s, t, Write))
  {
    if !HasWriter(s) {
      WaiterGuards(s, t);
    }
    assert !WriteOpen(Park(s, t, Write));
  }

  lemma RouseInv(s: State, t: ThreadId, side: Side)
    requires Inv(s) && Inside(s, side, t)
    ensures Inv(Rouse(s, t, side))
    ensures Inside(Rouse(s, t, side), side, t) && StatusOf(Rouse(s, t, side), side, t).Signalled?
    ensures Ticket(Rouse(s, t, side), side, t) == Ticket(s, side, t)
  {
    hide LedgerOK, PhaseOK, ReadersBlocked, WritersAwake, Discard;
    RouseLedger(s, t, side);
    StatusChangeInv(s, t, side, Rouse(s, t, side));
  }

  // Making one waiter stop being parked keeps the scheduling half of the invariant.
  lemma StatusChangeInv(s: State, t: ThreadId, side: Side, s': State)
    requires Inv(s) && Inside(s, side, t) && LedgerOK(s')
    requires s' == s.(read := s'.read, write := s'.write)
    requires s'.read.waiting == s.read.waiting && s'.read.tickets == s.read.tickets
    requires s'.write.waiting == s.write.waiting
    requires ProxyOf(s', if side == Read then Write else Read) == ProxyOf(s, if side == Read then Write else Read)
    requires ProxyOf(s', side).room.inside.Keys == ProxyOf(s, side).room.inside.Keys
    requires forall u :: Inside(s, side, u) && u != t ==>
               ProxyOf(s', side).room.inside[u] == ProxyOf(s, side).room.inside[u]
    requires Ticket(s', side, t) == Ticket(s, side, t) && !StatusOf(s', side, t).Parked?
    ensures PhaseOK(s') && ReadersBlocked(s') && WritersAwake(s')
  {
    hide LedgerOK;
    assert Reserved(s'.read.room, s.cutoff) == Reserved(s.read.room, s.cutoff);
    assert forall u :: IsParked(s'.read.room, u) ==> IsParked(s.read.room, u);
    if side == Write {
      assert t in s'.write.room.inside && !IsParked(s'.write.room, t);
    }
  }

  lemma CancelInv(s: State, t: ThreadId, side: Side)
    requires Inv(s) && s.cfg.runtime.Tasks? && Inside(s, side, t) && !StatusOf(s, side, t).Cancelling?
    ensures Inv(CancelStep(s, t, side))
  {
    hide LedgerOK, PhaseOK, ReadersBlocked, WritersAwake;
    CancelLedger(s, t, side);
    StatusChangeInv(s, t, side, CancelStep(s, t, side));
  }

  // ---- Grants ----

  // A reader that did not wait uses no slot; acquiring only wakes waiters.
  lemma AcquireFastQuiet(s: State, t: ThreadId)
    requires RoomsOpen(s)
    ensures var held := RecordReaderAcquire(s, t);
            var core := AcquireReadCore(s, t, false, None);
            && Quiet(held, core) && core.readersTurn == held.readersTurn
            && core.cutoff == held.cutoff && core.pending == held.pending
  {
    WakesQuiet(RecordReaderAcquire(s, t));
  }

  lemma GrantReadInv(s: State, t: ThreadId)
    requires Inv(s) && Free(s, t) && CanRead(s, t, false, None)
    ensures Inv(AcquireReadCore(s, t, false, None))
  {
    ReadersFacts(s);
    RecordLedger(s, t);
    AcquireFastQuiet(s, t);
    GrantedReadInv(RecordReaderAcquire(s, t), AcquireReadCore(s, t, false, None));
  }

  lemma GrantedReadInv(held: State, s': State)
    requires LedgerOK(held) && PhaseCount(held) && ReadersBlocked(held) && held.readersActive > 0
    requires Quiet(held, s')
    requires s'.readersTurn == held.readersTurn && s'.cutoff == held.cutoff && s'.pending == held.pending
    ensures Inv(s')
  {
    QuietLedger(held, s');
    WokenInv(held, s');
  }

  // A granted waiter uses up its reserved slot, if it has one.
  ghost function UseSlot(s: State, t: ThreadId): State
    requires Inside(s, Read, t)
  {
    if s.cfg.strategy.StrictFair? && IsReserved(s, true, Some(Ticket(s, Read, t)))
    then s.(pending := s.pending - 1) else s
  }

  // The state in which a granted reader has left the room and holds its read, but no
  // waiter was woken yet.
  ghost function SeatedReader(s: State, t: ThreadId): State
    requires Inside(s, Read, t)
  {
    RecordReaderAcquire(Leave(UseSlot(s, t), t, Read), t)
  }

  lemma SeatedLedger(s: State, t: ThreadId)
    requires LedgerOK(s) && Inside(s, Read, t) && StatusOf(s, Read, t).Signalled?
    requires !HasWriter(s)
    ensures LedgerOK(SeatedReader(s, t)) && SeatedReader(s, t).readersActive > 0
  {
    ReadersFacts(s);
    LeaveLedger(s, t, Read);
    RecordLedger(Leave(s, t, Read), t);
    PhaseFieldsLedger(RecordReaderAcquire(Leave(s, t, Read), t), SeatedReader(s, t));
  }

  lemma SeatedReaderOK(s: State, t: ThreadId)
    requires Inv(s) && Inside(s, Read, t) && StatusOf(s, Read, t).Signalled?
    requires !HasWriter(s)
    ensures PhaseCount(SeatedReader(s, t)) && ReadersBlocked(SeatedReader(s, t))
  {
    var s' := SeatedReader(s, t);
    assert s'.read.room.queue == s.read.room.queue && s'.read.tickets == s.read.tickets;
    assert s'.readersTurn == s.readersTurn && s'.cutoff == s.cutoff && s'.write == s.write;
    assert forall u :: IsParked(s'.read.room, u) ==>
                         IsParked(s.read.room, u) && Ticket(s', Read, u) == Ticket(s, Read, u);
    assert forall k: nat :: ReadGate(s', k) ==> ReadGate(s, k);
    LeaveReserved(s, t);
  }

  lemma LeaveReserved(s: State, t: ThreadId)
    requires Inside(s, Read, t)
    ensures |Reserved(Leave(s, t, Read).read.room, s.cutoff)| ==
            |Reserved(s.read.room, s.cutoff)| - (if Ticket(s, Read, t) <= s.cutoff then 1 else 0)
    ensures Ticket(s, Read, t) <= s.cutoff ==> |Reserved(s.read.room, s.cutoff)| > 0
  {
    var before := Reserved(s.read.room, s.cutoff);
    assert Reserved(Leave(s, t, Read).read.room, s.cutoff) == before - {t};
    if Ticket(s, Read, t) <= s.cutoff {
      assert t in before;
    } else {
      assert before - {t} == before;
    }
  }

  // Acquiring the core only wakes waiters and leaves the phase as the slot left it.
  lemma AcquireWaitingQuiet(s: State, t: ThreadId)
    requires RoomsOpen(s) && Inside(s, Read, t)
    ensures var held := RecordReaderAcquire(UseSlot(s, t), t);
            var core := AcquireReadCore(s, t, true, Some(Ticket(s, Read, t)));
            && Quiet(held, core) && core.readersTurn == held.readersTurn
            && core.cutoff == held.cutoff && core.pending == held.pending
  {
    var held := RecordReaderAcquire(UseSlot(s, t), t);
    WakesQuiet(held);
    assert held.cfg == s.cfg;
    var core := AcquireReadCore(s, t, true, Some(Ticket(s, Read, t)));
    assert core == held || core == WakeWaitingReader(held);
  }

  // A caller that is awake may leave before or after the others are woken.
  lemma LeaveQuiet(a: State, b: State, t: ThreadId)
    requires Quiet(a, b) && RoomsOpen(a) && Inside(a, Read, t) && StatusOf(a, Read, t).Signalled?
    ensures Quiet(Leave(a, t, Read), Leave(b, t, Read))
  {
    assert StatusOf(b, Read, t).Signalled?;
    assert t !in b.read.room.queue;
  }

  lemma GrantWaitingQuiet(s: State, t: ThreadId)
    requires RoomsOpen(s) && Inside(s, Read, t) && StatusOf(s, Read, t).Signalled?
    ensures var seated := SeatedReader(s, t);
            var granted := GrantWaiting(s, t, Read);
            && Quiet(seated, granted) && granted.readersTurn == seated.readersTurn
            && granted.cutoff == seated.cutoff && granted.pending == seated.pending
  {
    var held := RecordReaderAcquire(UseSlot(s, t), t);
    AcquireWaitingQuiet(s, t);
    LeaveQuiet(held, AcquireReadCore(s, t, true, Some(Ticket(s, Read, t))), t);
    assert SeatedReader(s, t) == Leave(held, t, Read);
  }

  lemma GrantWaitingReadInv(s: State, t: ThreadId)
    requires Inv(s) && Inside(s, Read, t) && StatusOf(s, Read, t).Signalled?
    requires CanRead(s, t, true, Some(Ticket(s, Read, t)))
    ensures Inv(GrantWaiting(s, t, Read))
  {
    SeatedLedger(s, t);
    SeatedReaderOK(s, t);
    GrantWaitingQuiet(s, t);
    GrantedReadInv(SeatedReader(s, t), GrantWaiting(s, t, Read));
  }

  lemma GrantWriteInv(s: State, t: ThreadId)
    requires Inv(s) && Free(s, t) && CanWrite(s, t)
    ensures Inv(AfterGrant(AcquireWriteCore(s, t), t, Write))
  {
    GrantWriteLedger(s, t);
  }

  lemma GrantWaitingWriteInv(s: State, t: ThreadId)
    requires Inv(s) && Inside(s, Write, t) && StatusOf(s, Write, t).Signalled?
    requires CanWrite(s, t)
    ensures Inv(GrantWaiting(s, t, Write))
  {
    var left := Leave(s, t, Write);
    LeaveLedger(s, t, Write);
    GrantWriteLedger(left, t);
    hide LedgerOK;
    assert GrantWaiting(s, t, Write) == AfterGrant(AcquireWriteCore(left, t), t, Write);
    GrantedWriteSettles(left, GrantWaiting(s, t, Write));
  }

  // With a writer nobody has a claim on being awake.
  lemma GrantedWriteSettles(s: State, s': State)
    requires PhaseOK(s) && HasWriter(s')
    requires s' == s.(writerActive := s'.writerActive, writerOwner := s'.writerOwner, writerId := s'.writerId,
                      writeCount := s'.writeCount, marker := s'.marker, clearing := s'.clearing)
    ensures PhaseOK(s') && ReadersBlocked(s') && WritersAwake(s')
  {}

  // ---- Abandons ----

  lemma AbandonReadInv(s: State, t: ThreadId)
    requires Inv(s) && Inside(s, Read, t) && StatusOf(s, Read, t).Signalled?
    ensures Inv(Abandon(s, t, Read))
  {
    LeaveLedger(s, t, Read);
    match s.cfg.strategy
    case WriterPreferring =>
      LeftReader(s, t);
    case ReaderPreferring =>
      AbandonReaderPreferring(s, t);
    case ReaderPhaseFair =>
      AbandonPhaseFair(s, t);
    case StrictFair =>
      AbandonStrict(s, t);
  }

  // A reader that leaves without a grant opens no reader's guard.
  lemma LeftReader(s: State, t: ThreadId)
    requires Inv(s) && Inside(s, Read, t) && StatusOf(s, Read, t).Signalled? && !s.cfg.strategy.StrictFair?
    ensures PhaseCount(Leave(s, t, Read)) && ReadersBlocked(Leave(s, t, Read))
    ensures s.cfg.strategy.WriterPreferring? ==> PhaseOK(Leave(s, t, Read)) && WritersAwake(Leave(s, t, Read))
  {
    var left := Leave(s, t, Read);
    assert forall u :: IsParked(left.read.room, u) ==> IsParked(s.read.room, u);
  }

  lemma AbandonReaderPreferring(s: State, t: ThreadId)
    requires Inv(s) && Inside(s, Read, t) && StatusOf(s, Read, t).Signalled?
    requires s.cfg.strategy.ReaderPreferring? && LedgerOK(Leave(s, t, Read))
    ensures Inv(Abandon(s, t, Read))
  {
    var left := Leave(s, t, Read);
    LeftReader(s, t);
    WakeWriterInv(left);
    ReadersFacts(left);
    if left.write.room.queue == [] {
      EmptyQueue(left.write.room);
    }
    hide LedgerOK;
  }

  lemma AbandonPhaseFair(s: State, t: ThreadId)
    requires Inv(s) && Inside(s, Read, t) && StatusOf(s, Read, t).Signalled?
    requires s.cfg.strategy.ReaderPhaseFair? && LedgerOK(Leave(s, t, Read))
    ensures Inv(Abandon(s, t, Read))
  {
    var left := Leave(s, t, Read);
    LeftReader(s, t);
    ReadersFacts(s);
    if s.readersTurn && s.readersActive == 0 {
      FinishSettles(left);
    }
    hide LedgerOK, FinishOrContinue;
  }

  // An abandoning reserved reader gives its slot back.
  ghost function ReturnSlot(s: State, t: ThreadId): State
    requires Inside(s, Read, t)
  {
    var left := Leave(s, t, Read);
    if s.readersTurn && Ticket(s, Read, t) <= s.cutoff && s.pending > 0
    then left.(pending := s.pending - 1) else left
  }

  lemma ReturnSlotOK(s: State, t: ThreadId)
    requires Inv(s) && Inside(s, Read, t) && StatusOf(s, Read, t).Signalled?
    requires s.cfg.strategy.StrictFair?
    ensures LedgerOK(ReturnSlot(s, t)) && PhaseCount(ReturnSlot(s, t)) && ReadersBlocked(ReturnSlot(s, t))
  {
    var slot := ReturnSlot(s, t);
    LeaveLedger(s, t, Read);
    PhaseFieldsLedger(Leave(s, t, Read), slot);
    LeaveReserved(s, t);
    assert forall u :: IsParked(slot.read.room, u) ==>
                         IsParked(s.read.room, u) && Ticket(slot, Read, u) == Ticket(s, Read, u);
  }

  lemma AbandonStrict(s: State, t: ThreadId)
    requires Inv(s) && Inside(s, Read, t) && StatusOf(s, Read, t).Signalled?
    requires s.cfg.strategy.StrictFair?
    ensures Inv(Abandon(s, t, Read))
  {
    hide LedgerOK, PhaseCount, ReadersBlocked, WritersAwake, FinishOrContinue, WakeWaitingReader;
    var slot := ReturnSlot(s, t);
    ReturnSlotOK(s, t);
    if slot.readersTurn && slot.pending > 0 {
      ReturnedSlotAwake(s, t);
      WakeWaitingReaderInv(slot);
    } else if slot.readersTurn && slot.readersActive == 0 {
      FinishSettles(slot);
    } else {
      ReturnedSlotAwake(s, t);
    }
  }

  lemma ReturnedSlotAwake(s: State, t: ThreadId)
    requires Inv(s) && Inside(s, Read, t) && StatusOf(s, Read, t).Signalled?
    requires s.cfg.strategy.StrictFair?
    ensures var slot := ReturnSlot(s, t);
            (slot.readersTurn && slot.pending <= 0 && slot.readersActive == 0)
            || (WritersAwake(slot) && (slot.readersTurn ==> slot.readersActive > 0 || PhaseBusy(slot)))
  {
    ReadersFacts(s);
  }

  lemma AbandonWriteInv(s: State, t: ThreadId)
    requires Inv(s) && Inside(s, Write, t) && StatusOf(s, Write, t).Signalled?
    ensures Inv(Abandon(s, t, Write))
  {
    LeaveLedger(s, t, Write);
    WriterAbortSettles(Leave(s, t, Write));
  }

  lemma AbandonInv(s: State, t: ThreadId, side: Side)
    requires Inv(s) && Inside(s, side, t) && StatusOf(s, side, t).Signalled?
    ensures Inv(Abandon(s, t, side))
  {
    match side
    case Read => AbandonReadInv(s, t);
    case Write => AbandonWriteInv(s, t);
  }

  lemma GrantWaitingInv(s: State, t: ThreadId, side: Side)
    requires Inv(s) && Inside(s, side, t) && StatusOf(s, side, t).Signalled?
    requires CanAcquire(s, t, side, true, Some(Ticket(s, side, t)))
    ensures Inv(GrantWaiting(s, t, side))
  {
    match side
    case Read => GrantWaitingReadInv(s, t);
    case Write => GrantWaitingWriteInv(s, t);
  }

  lemma LoopTurnInv(s: State, t: ThreadId, side: Side)
    requires Inv(s) && Inside(s, side, t) && StatusOf(s, side, t).Signalled?
    ensures Inv(LoopTurn(s, t, side))
  {
    if CanAcquire(s, t, side, true, Some(Ticket(s, side, t))) {
      GrantWaitingInv(s, t, side);
    } else {
      ParkInv(s, t, side);
    }
  }

  // ---- Releases and downgrades ----

  lemma ReleaseReadInv(s: State, t: ThreadId)
    requires Inv(s) && t in s.readerOwners
    ensures ReleaseReadCore(s, t).Some? && Inv(ReleaseReadCore(s, t).value)
  {
    ReadersFacts(s);
    ReaderGoneLedger(s, t);
    LastReaderSettles(ReaderGone(s, t));
  }

  lemma ReleaseWriteInv(s: State, t: ThreadId)
    requires Inv(s) && Free(s, t)
    ensures ReleaseWriteCore(s, t).Some? ==> Inv(ReleaseWriteCore(s, t).value)
  {
    if s.cfg.reentrant && IsCurrentWriter(s, t) && s.writeCount > 1 {
      var s' := s.(writeCount := s.writeCount - 1);
      assert LedgerOK(s');
    } else if ReleaseWriteCore(s, t).Some? {
      WriterGoneLedger(s);
      WriterAbortSettles(WriterGone(s));
    }
  }

  lemma UnmarkInv(s: State)
    requires Inv(s)
    ensures Inv(s.(marker := None))
  {
    var s' := s.(marker := None);
  }

  lemma ReleaseInv(s: State, t: ThreadId, side: Side)
    requires Inv(s) && Free(s, t)
    ensures Inv(ReleaseSide(s, t, side).0)
  {
    var s1 := if side == Write && s.marker == Some(t) then s.(marker := None) else s;
    UnmarkInv(s);
    if t in s1.readerOwners {
      ReleaseReadInv(s1, t);
    }
    ReleaseWriteInv(s1, t);
  }

  ghost function Downgraded(s: State, t: ThreadId): State {
    RecordReaderAcquire(WriterGone(s), t)
  }

  lemma DowngradedOK(s: State, t: ThreadId)
    requires Inv(s) && Free(s, t) && DowngradeCore(s, t).Some?
    ensures DowngradeCore(s, t) == Some(AfterDowngrade(Downgraded(s, t)))
    ensures LedgerOK(Downgraded(s, t)) && PhaseCount(Downgraded(s, t))
    ensures !HasWriter(Downgraded(s, t)) && Downgraded(s, t).readersActive > 0
  {
    WriterGoneLedger(s);
    RecordLedger(WriterGone(s), t);
    ReadersFacts(s);
  }

  lemma MarkInv(s: State, t: ThreadId)
    requires Inv(s) && !HasWriter(s)
    ensures Inv(s.(marker := Some(t)))
  {
  }

  lemma DowngradeInv(s: State, t: ThreadId)
    requires Inv(s) && Free(s, t) && DowngradeCore(s, t).Some?
    ensures Inv(DowngradeCore(s, t).value.(marker := Some(t)))
  {
    DowngradedOK(s, t);
    DowngradeSettles(Downgraded(s, t));
    AftersQuiet(Downgraded(s, t));
    MarkInv(AfterDowngrade(Downgraded(s, t)), t);
  }

  lemma ResetMarkerInv(s: State, t: ThreadId)
    requires Inv(s)
    ensures Inv(s.(marker := None, clearing := s.clearing - {t}))
  {
    var s' := s.(marker := None, clearing := s.clearing - {t});
  }

  // ---- Every step, every run ----

  lemma InitInv(cfg: Config)
    ensures Inv(Init(cfg))
  {}

  lemma ArriveInv(s: State, t: ThreadId, side: Side, blocking: bool)
    requires Inv(s) && Free(s, t)
    ensures Inv(ArriveStep(s, t, side, blocking).0)
  {
    if side == Write && UpgradeRefused(s, t) {
    } else if CanAcquire(s, t, side, false, None) {
      match side
      case Read => GrantReadInv(s, t);
      case Write => GrantWriteInv(s, t);
    } else if blocking {
      EnterInv(s, t, side);
      LoopTurnInv(Enter(s, t, side), t, side);
    }
  }

  lemma ExpireInv(s: State, t: ThreadId, side: Side)
    requires Inv(s) && Inside(s, side, t)
    ensures Inv(ExpireStep(s, t, side).0)
  {
    RouseInv(s, t, side);
    var awake := Rouse(s, t, side);
    if CanAcquire(awake, t, side, true, Some(Ticket(awake, side, t))) {
      GrantWaitingInv(awake, t, side);
    } else {
      AbandonInv(awake, t, side);
    }
  }

  lemma StepInv(s: State, e: Event)
    requires Inv(s) && Enabled(s, e)
    ensures Inv(Next(s, e))
  {
    match e
    case Arrive(t, side, blocking) => ArriveInv(s, t, side, blocking);
    case Resume(t, side) => LoopTurnInv(s, t, side);
    case Expire(t, side) => ExpireInv(s, t, side);
    case Cancel(t, side) => CancelInv(s, t, side);
    case Abort(t, side) =>
      RouseInv(s, t, side);
      AbandonInv(Rouse(s, t, side), t, side);
    case ResetMarker(t) => ResetMarkerInv(s, t);
    case Release(t, side) => ReleaseInv(s, t, side);
    case Downgrade(t) =>
      if DowngradeCore(s, t).Some? {
        DowngradeInv(s, t);
      }
  }

  // A run: consecutive states linked by enabled events.
  ghost predicate Run(ss: seq<State>, es: seq<Event>) {
    && |ss| == |es| + 1
    && forall i :: 0 <= i < |es| ==> Enabled(ss[i], es[i]) && ss[i + 1] == Next(ss[i], es[i])
  }

  lemma RunExtend(ss: seq<State>, es: seq<Event>, e: Event)
    requires Run(ss, es) && Enabled(ss[|es|], e)
    ensures Run(ss + [Next(ss[|es|], e)], es + [e])
  {}

  lemma {:induction false} RunInv(ss: seq<State>, es: seq<Event>, k: nat)
    requires Run(ss, es) && Inv(ss[0]) && k < |ss|
    ensures Inv(ss[k]) && ss[k].cfg == ss[0].cfg
  {
    if k > 0 {
      RunInv(ss, es, k - 1);
      StepInv(ss[k - 1], es[k - 1]);
    }
  }

  ghost predicate Reachable(s: State) {
    exists ss: seq<State>, es: seq<Event> ::
      Run(ss, es) && ss[0] == Init(ss[0].cfg) && ss[|es|] == s
  }

  lemma ReachableInv(s: State)
    requires Reachable(s)
    ensures Inv(s)
  {
    var ss: seq<State>, es: seq<Event> :|
      Run(ss, es) && ss[0] == Init(ss[0].cfg) && ss[|es|] == s;
    InitInv(ss[0].cfg);
    RunInv(ss, es, |es|);
  }

  lemma InitReachable(cfg: Config)
    ensures Reachable(Init(cfg))
  {
    assert Run([Init(cfg)], []);
  }

  lemma ReachableStep(s: State, e: Event)
    requires Reachable(s) && Enabled(s, e)
    ensures Reachable(Next(s, e))
  {
    var ss: seq<State>, es: seq<Event> :|
      Run(ss, es) && ss[0] == Init(ss[0].cfg) && ss[|es|] == s;
    hide Exec;
    RunExtend(ss, es, e);
  }
}
