// Every step does what its cause says.
module Handoffs {
  import opened WaitQueues
  import opened LockModel
  import opened Ledger
  import opened Invariant
  import opened Population
  import opened Preservation
  import opened Refinement
  import opened Seating
  import opened Marking
  import opened Schedules
  import opened Fairness
  import opened Causes

  // ---- The endings of the steps ----

  // b is a after waking that many readers and writers, with the given phase.
  ghost predicate Ends(a: State, b: State, readers: nat, writers: nat, phase: (bool, int)) {
    && FifoWake(a.read.room, readers, b.read.room)
    && FifoWake(a.write.room, writers, b.write.room)
    && (b.readersTurn, b.cutoff) == phase
  }

  lemma NothingEnds(a: State, b: State)
    requires RoomsOpen(a) && b.read.room == a.read.room && b.write.room == a.write.room
    ensures Ends(a, b, 0, 0, (b.readersTurn, b.cutoff))
  {
    WakeNobody(a.read.room);
    WakeNobody(a.write.room);
  }

  lemma WakeReadersEnds(a: State)
    requires RoomsOpen(a)
    ensures Ends(a, WakeReaders(a), |a.read.room.queue|, 0, (a.readersTurn, a.cutoff))
  {
    NotifyIsFifo(a.read.room, |a.read.room.queue|);
    WakeNobody(a.write.room);
  }

  lemma WakeWriterEnds(a: State)
    requires RoomsOpen(a)
    ensures Ends(a, WakeWriter(a), 0, 1, (a.readersTurn, a.cutoff))
  {
    WakeNobody(a.read.room);
    NotifyIsFifo(a.write.room, 1);
  }

  // With nobody listed it makes no difference how many are woken.
  lemma UnlistedEnds(a: State, b: State, readers: nat, writers: nat, readers': nat, writers': nat)
    requires RoomsOpen(a) && Ends(a, b, readers, writers, (b.readersTurn, b.cutoff))
    requires readers' == readers || a.read.room.queue == []
    requires writers' == writers || a.write.room.queue == []
    ensures Ends(a, b, readers', writers', (b.readersTurn, b.cutoff))
  {
    if a.read.room.queue == [] {
      WakeNobodyListed(a.read.room, readers);
      WakeNobodyListed(a.read.room, readers');
      FifoWakeUnique(a.read.room, readers, a.read.room, b.read.room);
    }
    if a.write.room.queue == [] {
      WakeNobodyListed(a.write.room, writers);
      WakeNobodyListed(a.write.room, writers');
      FifoWakeUnique(a.write.room, writers, a.write.room, b.write.room);
    }
  }

  // What `_wake_waiting_reader` wakes in terms of the waiting readers.
  ghost function Width(a: State): nat {
    if a.writerActive then 0
    else if a.cfg.strategy.StrictFair? then |Reserved(a.read.room, a.cutoff)|
    else |a.read.room.queue|
  }

  lemma WakePhaseEnds(a: State)
    requires LedgerOK(a)
    requires a.cfg.strategy.StrictFair? ==> a.pending == |Reserved(a.read.room, a.cutoff)|
    ensures Ends(a, WakeWaitingReader(a), Width(a), 0, (a.readersTurn, a.cutoff))
  {
    PhaseWakesExactly(a);
    WakeNobody(a.write.room);
    SubsetSize(Reserved(a.read.room, a.cutoff), a.read.room.inside.Keys);
    hide FifoWake;
  }

  lemma StartPhaseEnds(a: State)
    requires LedgerOK(a) && IsFair(a)
    ensures var turn := a.cfg.strategy.ReaderPhaseFair? || a.read.room.inside != map[];
            var cutoff := if a.cfg.strategy.StrictFair? then a.read.tickets else a.cutoff;
            && Ends(a, StartReaderPhase(a),
                    if a.writerActive then 0
                    else if a.cfg.strategy.StrictFair? then |a.read.room.inside| else |a.read.room.queue|,
                    0, (turn, cutoff))
  {
    ListedWaits(a.read);
    if a.cfg.strategy.StrictFair? {
      var phase := a.(readersTurn := a.read.waiting > 0, pending := a.read.waiting, cutoff := a.read.tickets);
      assert Reserved(a.read.room, phase.cutoff) == a.read.room.inside.Keys;
      PhaseFieldsLedger(a, phase);
      WakePhaseEnds(phase);
      NothingEnds(a, phase);
    } else {
      PhaseFieldsLedger(a, a.(readersTurn := true));
      WakePhaseEnds(a.(readersTurn := true));
    }
    hide FifoWake, LedgerOK;
  }

  lemma FinishEnds(a: State)
    requires LedgerOK(a) && PhaseCount(a) && IsFair(a)
    ensures if a.readersTurn && (if a.cfg.strategy.StrictFair? then Reserved(a.read.room, a.cutoff) != {}
                                 else a.read.room.inside != map[])
            then Ends(a, FinishOrContinue(a), Width(a), 0, (true, a.cutoff))
            else Ends(a, FinishOrContinue(a), 0, 1, (false, if a.cfg.strategy.StrictFair? then 0 else a.cutoff))
  {
    ListedWaits(a.read);
    ListedWaits(a.write);
    var closed := if a.cfg.strategy.StrictFair? then a.(readersTurn := false, cutoff := 0, pending := 0)
                  else a.(readersTurn := false);
    if PhaseBusy(a) {
      WakePhaseEnds(a);
    } else {
      WakeWriterEnds(closed);
      NothingEnds(closed, closed);
      if closed.write.room.queue == [] {
        UnlistedEnds(closed, closed, 0, 0, 0, 1);
      }
    }
    hide FifoWake, LedgerOK;
  }

  lemma WriterAbortEnds(a: State)
    requires LedgerOK(a)
    ensures var b := OnWriterAbort(a); var listed := |a.read.room.queue|; var phase := (a.readersTurn, a.cutoff);
            match a.cfg.strategy
            case WriterPreferring => Ends(a, b, if a.write.room.queue == [] then listed else 0, 1, phase)
            case ReaderPreferring => Ends(a, b, listed, if listed == 0 then 1 else 0, phase)
            case ReaderPhaseFair | StrictFair =>
              if listed == 0 then Ends(a, b, 0, 1, phase) else b == StartReaderPhase(a)
  {
    ListedWaits(a.read);
    ListedWaits(a.write);
    WakeWriterEnds(a);
    WakeReadersEnds(a);
    NothingEnds(a, a);
    if a.write.room.queue == [] {
      UnlistedEnds(a, WakeReaders(a), |a.read.room.queue|, 0, |a.read.room.queue|, 1);
      UnlistedEnds(a, a, 0, 0, 0, 1);
      if a.read.room.queue == [] {
        UnlistedEnds(a, WakeReaders(a), |a.read.room.queue|, 0, 0, 1);
      }
    }
    hide FifoWake, LedgerOK, StartReaderPhase, WakeWriter, WakeReaders;
  }

  lemma LastReaderEnds(a: State)
    requires LedgerOK(a) && PhaseCount(a) && a.readersActive == 0 && !IsFair(a)
    ensures Ends(a, AfterLastReader(a), 0, 1, (a.readersTurn, a.cutoff))
  {
    WakeWriterEnds(a);
    NothingEnds(a, a);
    if a.write.room.queue == [] {
      UnlistedEnds(a, a, 0, 0, 0, 1);
    }
    hide FifoWake, LedgerOK, WakeWriter;
  }

  lemma DowngradeEnds(a: State)
    requires LedgerOK(a)
    ensures var b := AfterDowngrade(a); var listed := |a.read.room.queue|; var phase := (a.readersTurn, a.cutoff);
            match a.cfg.strategy
            case WriterPreferring => Ends(a, b, if a.write.room.inside == map[] then listed else 0, 0, phase)
            case ReaderPreferring => Ends(a, b, listed, 0, phase)
            case ReaderPhaseFair | StrictFair => b == StartReaderPhase(a)
  {
    ListedWaits(a.write);
    WakeReadersEnds(a);
    NothingEnds(a, a);
    hide FifoWake, LedgerOK, StartReaderPhase, WakeReaders;
  }

  // ---- Readers that leave ----

  lemma ReaderAbandonEnds(s: State, t: ThreadId)
    requires Inv(s) && Inside(s, Read, t) && StatusOf(s, Read, t).Signalled? && !s.cfg.strategy.StrictFair?
    ensures var a := Leave(s, t, Read); var b := Abandon(s, t, Read); var phase := (s.readersTurn, s.cutoff);
            match s.cfg.strategy
            case WriterPreferring => Ends(a, b, 0, 0, phase)
            case ReaderPreferring =>
              Ends(a, b, 0, if a.read.room.inside == map[] && s.readersActive == 0 then 1 else 0, phase)
            case _ =>
              if s.readersTurn && s.readersActive == 0 then b == FinishOrContinue(a) else Ends(a, b, 0, 0, phase)
  {
    var a := Leave(s, t, Read);
    LeaveLedger(s, t, Read);
    ListedWaits(a.read);
    WakeWriterEnds(a);
    NothingEnds(a, a);
    if a.write.room.queue == [] {
      UnlistedEnds(a, a, 0, 0, 0, 1);
    }
    hide FifoWake, LedgerOK, WakeWriter, FinishOrContinue;
  }

  lemma StrictAbandonEnds(s: State, t: ThreadId)
    requires Inv(s) && Inside(s, Read, t) && StatusOf(s, Read, t).Signalled? && s.cfg.strategy.StrictFair?
    ensures var a := Leave(s, t, Read); var b := Abandon(s, t, Read);
            var left := Reserved(a.read.room, s.cutoff);
            if s.readersTurn && left == {} && s.readersActive == 0 then Ends(a, b, 0, 1, (false, 0))
            else Ends(a, b, if s.readersTurn then Width(a) else 0, 0, (s.readersTurn, s.cutoff))
  {
    var slot := ReturnSlot(s, t);
    ReturnSlotOK(s, t);
    assert slot.read == Leave(s, t, Read).read && slot.write == s.write;
    assert slot.readersTurn == s.readersTurn && slot.cutoff == s.cutoff && slot.writerActive == s.writerActive;
    assert Abandon(s, t, Read) == AfterSlot(slot);
    hide FifoWake, Inv, AfterSlot, Abandon;
    SlotEnds(slot);
  }

  ghost function AfterSlot(slot: State): State {
    if slot.readersTurn && slot.pending > 0 then WakeWaitingReader(slot)
    else if slot.readersTurn && slot.readersActive == 0 then FinishOrContinue(slot)
    else slot
  }

  lemma SlotEnds(slot: State)
    requires LedgerOK(slot) && PhaseCount(slot) && slot.cfg.strategy.StrictFair?
    ensures if slot.readersTurn && Reserved(slot.read.room, slot.cutoff) == {} && slot.readersActive == 0
            then Ends(slot, AfterSlot(slot), 0, 1, (false, 0))
            else Ends(slot, AfterSlot(slot), if slot.readersTurn then Width(slot) else 0, 0,
                      (slot.readersTurn, slot.cutoff))
  {
    LedgerRooms(slot);
    NothingEnds(slot, slot);
    if slot.readersTurn {
      WakePhaseEnds(slot);
      if slot.readersActive == 0 {
        FinishEnds(slot);
      }
    }
    hide FifoWake, LedgerOK, WakeWaitingReader, FinishOrContinue;
  }

  // A granted waiter is gone and the phase, if one is open, wakes its readers.
  lemma ReaderGrantEnds(s: State, t: ThreadId)
    requires Inv(s) && Inside(s, Read, t) && StatusOf(s, Read, t).Signalled? && !HasWriter(s)
    ensures var a := Leave(s, t, Read);
            Ends(a, GrantWaiting(s, t, Read), if IsFair(s) && s.readersTurn then Width(a) else 0, 0,
                 (s.readersTurn, s.cutoff))
  {
    var held := RecordReaderAcquire(UseSlot(s, t), t);
    var core := AcquireReadCore(s, t, true, Some(Ticket(s, Read, t)));
    GrantWakes(s, t);
    LedgerRooms(s);
    FifoWakeWithout(held.read.room, if IsFair(s) && s.readersTurn then Width(Leave(s, t, Read)) else 0,
                    core.read.room, t);
    AcquireWaitingQuiet(s, t);
    CoreKeepsWriteRoom(s, t);
    WakeNobody(s.write.room);
    hide FifoWake, Inv, AcquireReadCore;
  }

  lemma CoreKeepsWriteRoom(s: State, t: ThreadId)
    requires Inside(s, Read, t)
    ensures AcquireReadCore(s, t, true, Some(Ticket(s, Read, t))).write == s.write
  {}

  lemma GrantWakes(s: State, t: ThreadId)
    requires Inv(s) && Inside(s, Read, t) && StatusOf(s, Read, t).Signalled? && !HasWriter(s)
    ensures FifoWake(s.read.room, if IsFair(s) && s.readersTurn then Width(Leave(s, t, Read)) else 0,
                     AcquireReadCore(s, t, true, Some(Ticket(s, Read, t))).read.room)
    ensures t !in s.read.room.queue
  {
    var held := RecordReaderAcquire(UseSlot(s, t), t);
    SeatedReaderOK(s, t);
    LeaveReserved(s, t);
    ListedWaits(s.read);
    WakeNobody(s.read.room);
    PhaseWakesExactly(held);
    SubsetSize(Reserved(s.read.room, s.cutoff), s.read.room.inside.Keys);
    hide FifoWake, ReadersBlocked, WritersAwake;
  }

  // A read request that goes straight through wakes the readers of an open phase.
  lemma FastReadEnds(s: State, t: ThreadId)
    requires Inv(s) && Free(s, t) && CanRead(s, t, false, None)
    ensures Ends(s, AcquireReadCore(s, t, false, None), if IsFair(s) && s.readersTurn then Width(s) else 0, 0,
                 (s.readersTurn, s.cutoff))
  {
    var held := RecordReaderAcquire(s, t);
    ReadersFacts(s);
    RecordLedger(s, t);
    LedgerRooms(held);
    ListedWaits(s.read);
    NothingEnds(held, held);
    if IsFair(s) && s.readersTurn {
      WakePhaseEnds(held);
    }
    assert Width(held) == Width(s);
    hide FifoWake, LedgerOK, ReadersBlocked, WritersAwake, WakeWaitingReader;
  }

  // ---- Main result ----

  ghost predicate Hands(s: State, e: Event)
    requires Enabled(s, e)
  {
    && FifoWake(OwnRoom(s, e, Read), ReadersWoken(s, e), Next(s, e).read.room)
    && FifoWake(OwnRoom(s, e, Write), WritersWoken(s, e), Next(s, e).write.room)
    && (Next(s, e).readersTurn, Next(s, e).cutoff) == PhaseAfter(s, e)
  }

  lemma HandsFrom(s: State, e: Event, a: State, b: State)
    requires Enabled(s, e)
    requires a.read.room == OwnRoom(s, e, Read) && a.write.room == OwnRoom(s, e, Write)
    requires Ends(a, b, ReadersWoken(s, e), WritersWoken(s, e), PhaseAfter(s, e))
    requires b.read.room == Next(s, e).read.room && b.write.room == Next(s, e).write.room
    requires b.readersTurn == Next(s, e).readersTurn && b.cutoff == Next(s, e).cutoff
    ensures Hands(s, e)
  {}

  // Steps that wake nobody and leave the phase alone.
  lemma UnrelatedHands(s: State, e: Event)
    requires Enabled(s, e) && CauseOf(s, e).Unrelated?
    requires RoomsOpen(Next(s, e))
    requires Next(s, e).read.room == OwnRoom(s, e, Read) && Next(s, e).write.room == OwnRoom(s, e, Write)
    requires Next(s, e).readersTurn == s.readersTurn && Next(s, e).cutoff == s.cutoff
    ensures Hands(s, e)
  {
    WakeNobody(OwnRoom(s, e, Read));
    WakeNobody(OwnRoom(s, e, Write));
  }

  lemma ArriveUnrelated(s: State, e: Event)
    requires Inv(s) && Enabled(s, e) && e.Arrive? && !CauseOf(s, e).ReadGranted?
    requires Exec(s, e).1 == OutcomeOf(s, e)
    ensures CauseOf(s, e).Unrelated?
    ensures Next(s, e).read.room == OwnRoom(s, e, Read) && Next(s, e).write.room == OwnRoom(s, e, Write)
    ensures Next(s, e).readersTurn == s.readersTurn && Next(s, e).cutoff == s.cutoff
  {
    if Exec(s, e).1 == Waiting {
      ArriveParks(s, e);
      ParkedRoom(s, e);
    } else {
      NotSeated(s, e);
      UnseatedRoom(s, e);
    }
    hide Inv, OutcomeOf, OwnRoom, Exec, Park, Enter, AfterGrant, AcquireCore;
  }

  lemma ParkedRoom(s: State, e: Event)
    requires Enabled(s, e) && e.Arrive? && OutcomeOf(s, e) == Waiting
    ensures var s' := Park(Enter(s, e.t, e.side), e.t, e.side);
            && s'.read.room == OwnRoom(s, e, Read) && s'.write.room == OwnRoom(s, e, Write)
            && s' == s.(read := s'.read, write := s'.write)
  {
    hide OutcomeOf;
  }

  lemma UnseatedRoom(s: State, e: Event)
    requires Enabled(s, e) && e.Arrive? && OutcomeOf(s, e) != Waiting && !CauseOf(s, e).ReadGranted?
    ensures CauseOf(s, e).Unrelated? && s.read.room == OwnRoom(s, e, Read) && s.write.room == OwnRoom(s, e, Write)
    ensures OutcomeOf(s, e) == Granted ==>
              var s' := AfterGrant(AcquireCore(s, e.t, e.side, false, None), e.t, e.side);
              && s'.read == s.read && s'.write == s.write
              && s'.readersTurn == s.readersTurn && s'.cutoff == s.cutoff
  {
    hide OutcomeOf, AcquireReadCore;
  }

  lemma ArriveParks(s: State, e: Event)
    requires Inv(s) && Enabled(s, e) && e.Arrive? && Exec(s, e).1 == Waiting
    ensures Next(s, e) == Park(Enter(s, e.t, e.side), e.t, e.side)
  {
    hide CanAcquire;
    BlockedFirst(s, e);
    EnterStillBlocked(s, e.t, e.side);
  }

  // A request that does not wait was granted at once, or changed nothing.
  lemma NotSeated(s: State, e: Event)
    requires Inv(s) && Enabled(s, e) && e.Arrive? && Exec(s, e).1 != Waiting
    ensures if Exec(s, e).1 == Granted
            then Next(s, e) == AfterGrant(AcquireCore(s, e.t, e.side, false, None), e.t, e.side)
            else Next(s, e) == s
  {
    hide CanAcquire, AcquireCore;
    if !CanAcquire(s, e.t, e.side, false, None) && e.blocking && !(e.side == Write && UpgradeRefused(s, e.t)) {
      EnterStillBlocked(s, e.t, e.side);
    }
  }

  // A request that waits found its guard closed and is no upgrade.
  lemma BlockedFirst(s: State, e: Event)
    requires Enabled(s, e) && e.Arrive? && Exec(s, e).1 == Waiting
    ensures !CanAcquire(s, e.t, e.side, false, None) && (e.side == Write ==> !UpgradeRefused(s, e.t))
  {
    hide CanAcquire;
  }

  lemma ArriveReadHands(s: State, e: Event)
    requires Inv(s) && Enabled(s, e) && e.Arrive? && CauseOf(s, e).ReadGranted?
    requires Exec(s, e).1 == OutcomeOf(s, e)
    ensures Hands(s, e)
  {
    ArriveReadIs(s, e);
    FastReadEnds(s, e.t);
    assert !s.writerActive;
    hide Inv, Exec, OutcomeOf, Ends, AcquireReadCore;
    HandsFrom(s, e, s, AcquireReadCore(s, e.t, false, None));
  }

  lemma ArriveReadIs(s: State, e: Event)
    requires Inv(s) && Enabled(s, e) && e.Arrive? && e.side == Read && Exec(s, e).1 == Granted
    ensures CanRead(s, e.t, false, None) && Next(s, e) == AcquireReadCore(s, e.t, false, None)
  {
    hide AcquireReadCore;
    if !CanRead(s, e.t, false, None) && e.blocking {
      EnterStillBlocked(s, e.t, Read);
    }
  }

  lemma ArriveHands(s: State, e: Event)
    requires Inv(s) && Enabled(s, e) && e.Arrive?
    ensures Hands(s, e)
  {
    hide Inv, Exec, OutcomeOf, Hands, OwnRoom;
    OutcomeExactly(s, e);
    if CauseOf(s, e).ReadGranted? {
      ArriveReadHands(s, e);
    } else {
      ArriveUnrelated(s, e);
      NextRooms(s, e);
      UnrelatedHands(s, e);
    }
  }

  lemma NextRooms(s: State, e: Event)
    requires Inv(s) && Enabled(s, e)
    ensures RoomsOpen(Next(s, e))
  {
    StepInv(s, e);
    LedgerOf(Next(s, e));
    LedgerRooms(Next(s, e));
  }

  // ---- Waiters ----

  // The state in which the waiter looks at its guard.
  function Awake(s: State, e: Event): State
    requires Enabled(s, e) && (e.Resume? || e.Expire? || e.Abort?)
  {
    if e.Resume? then s else Rouse(s, e.t, e.side)
  }

  lemma AwakeFacts(s: State, e: Event)
    requires Inv(s) && Enabled(s, e) && (e.Resume? || e.Expire? || e.Abort?)
    ensures var w := Awake(s, e);
            && Inv(w) && Inside(w, e.side, e.t) && StatusOf(w, e.side, e.t).Signalled?
            && w == s.(read := w.read, write := w.write) && w.read.tickets == s.read.tickets
  {
    RouseInv(s, e.t, e.side);
  }

  lemma WaiterIs(s: State, e: Event)
    requires Enabled(s, e) && (e.Resume? || e.Expire? || e.Abort?)
    ensures Exec(s, e).1 == Granted ==> Next(s, e) == GrantWaiting(Awake(s, e), e.t, e.side)
    ensures Exec(s, e).1 == Abandoned ==> Next(s, e) == Abandon(Awake(s, e), e.t, e.side)
    ensures Exec(s, e).1 == Waiting ==> Next(s, e) == Park(s, e.t, e.side)
  {}

  // a differs from s by the caller's own place only.
  predicate OnlyMoved(s: State, e: Event, a: State)
    requires Enabled(s, e)
  {
    && a.read.room == OwnRoom(s, e, Read) && a.write.room == OwnRoom(s, e, Write)
    && a.readersTurn == s.readersTurn && a.cutoff == s.cutoff && a.cfg == s.cfg
    && a.read.tickets == s.read.tickets
    && (a.writerActive <==> PlainWriterStays(s, e))
  }

  lemma LeavesOwnRoom(s: State, e: Event)
    requires Inv(s) && Enabled(s, e) && (e.Resume? || e.Expire? || e.Abort?)
    requires e.Resume? ==> OutcomeOf(s, e) != Waiting
    ensures OnlyMoved(s, e, Leave(Awake(s, e), e.t, e.side))
    ensures Leave(Awake(s, e), e.t, e.side).readersActive == s.readersActive
  {
    PlainWriterActive(s, e);
    var a := Leave(Awake(s, e), e.t, e.side);
    hide Inv;
    if e.Resume? {
      ResumeLeaves(s, e);
    } else {
      RouseThenLeave(s, e.t, e.side);
      RousedLeaves(s, e);
    }
    hide OutcomeOf, OwnRoom, PlainWriterStays, Discard, Rouse, Leave;
  }

  lemma ResumeLeaves(s: State, e: Event)
    requires Enabled(s, e) && e.Resume? && OutcomeOf(s, e) != Waiting
    ensures var a := Leave(s, e.t, e.side);
            && a.read.room == OwnRoom(s, e, Read) && a.write.room == OwnRoom(s, e, Write)
            && a == s.(read := a.read, write := a.write) && a.read.tickets == s.read.tickets
  {
    hide OutcomeOf;
  }

  lemma RousedLeaves(s: State, e: Event)
    requires Enabled(s, e) && (e.Expire? || e.Abort?)
    requires var r := ProxyOf(s, e.side).room; var a := Leave(Rouse(s, e.t, e.side), e.t, e.side);
             && ProxyOf(a, e.side).room == Room(Discard(r.queue, e.t), r.inside - {e.t})
             && a == WithProxy(s, e.side, ProxyOf(a, e.side))
             && ProxyOf(a, e.side).tickets == ProxyOf(s, e.side).tickets
    ensures var a := Leave(Rouse(s, e.t, e.side), e.t, e.side);
            && a.read.room == OwnRoom(s, e, Read) && a.write.room == OwnRoom(s, e, Write)
            && a == s.(read := a.read, write := a.write) && a.read.tickets == s.read.tickets
  {
    hide Discard, Rouse, Leave;
  }

  lemma RouseThenLeave(s: State, t: ThreadId, side: Side)
    requires Inside(s, side, t)
    ensures var r := ProxyOf(s, side).room; var a := Leave(Rouse(s, t, side), t, side);
            && ProxyOf(a, side).room == Room(Discard(r.queue, t), r.inside - {t})
            && a == WithProxy(s, side, ProxyOf(a, side)) && ProxyOf(a, side).tickets == ProxyOf(s, side).tickets
  {
    hide Discard;
    assert ProxyOf(s, side).room.inside[t := ProxyOf(s, side).room.inside[t].(status := Signalled)] - {t}
        == ProxyOf(s, side).room.inside - {t};
  }

  // A plain writer that is there before the step is there after it, unless it is released.
  lemma PlainWriterActive(s: State, e: Event)
    requires Inv(s) && Enabled(s, e) && (e.Arrive? || e.Resume? || e.Expire? || e.Abort?)
    ensures PlainWriterStays(s, e) <==> s.writerActive
  {}

  lemma ReadGrantedTable(s: State, e: Event, a: State)
    requires Enabled(s, e) && CauseOf(s, e).ReadGranted? && OnlyMoved(s, e, a)
    ensures ReadersWoken(s, e) == (if IsFair(s) && a.readersTurn then Width(a) else 0)
    ensures WritersWoken(s, e) == 0 && PhaseAfter(s, e) == (a.readersTurn, a.cutoff)
  {
    hide OutcomeOf, OwnRoom, EndsWriting, PlainWriterStays;
  }

  lemma ReaderGrantHands(s: State, e: Event)
    requires Inv(s) && Enabled(s, e) && (e.Resume? || e.Expire?) && CauseOf(s, e).ReadGranted?
    requires Exec(s, e).1 == OutcomeOf(s, e)
    ensures Hands(s, e)
  {
    ReadGrantedIs(s, e);
    AwakeFacts(s, e);
    WaiterIs(s, e);
    hide Inv, Exec, OutcomeOf, Ends, GrantWaiting, Awake, OwnRoom, Leave;
    hide CauseOf, ReadersWoken, WritersWoken, PhaseAfter, PlainWriterStays;
    var a := Leave(Awake(s, e), e.t, Read);
    LeavesOwnRoom(s, e);
    ReadGrantedTable(s, e, a);
    ReaderGrantEnds(Awake(s, e), e.t);
    HandsFrom(s, e, a, Next(s, e));
  }

  lemma ReadGrantedIs(s: State, e: Event)
    requires Inv(s) && Enabled(s, e) && CauseOf(s, e).ReadGranted? && (e.Resume? || e.Expire?)
    ensures e.side == Read && OutcomeOf(s, e) == Granted && !HasWriter(Awake(s, e))
  {}

  lemma WriterGrantHands(s: State, e: Event)
    requires Inv(s) && Enabled(s, e) && (e.Resume? || e.Expire?) && e.side == Write && OutcomeOf(s, e) == Granted
    requires Exec(s, e).1 == OutcomeOf(s, e)
    ensures Hands(s, e)
  {
    LeavesOwnRoom(s, e);
    WaiterIs(s, e);
    NextRooms(s, e);
    hide Inv, Exec, OutcomeOf, OwnRoom, Awake;
    UnrelatedHands(s, e);
  }

  lemma ParkHands(s: State, e: Event)
    requires Inv(s) && Enabled(s, e) && e.Resume? && Exec(s, e).1 == OutcomeOf(s, e) == Waiting
    ensures Hands(s, e)
  {
    NextRooms(s, e);
    WaiterIs(s, e);
    hide Inv, Exec, OutcomeOf;
    UnrelatedHands(s, e);
  }

  // What follows when writing ends or a writer gives up, by strategy.
  lemma WriterLeftTable(s: State, e: Event, a: State)
    requires LedgerOK(a) && Enabled(s, e) && OnlyMoved(s, e, a)
    requires CauseOf(s, e).WriterGaveUp? || CauseOf(s, e).WriteEnded?
    ensures var listed := |a.read.room.queue|; var phase := (a.readersTurn, a.cutoff);
            match a.cfg.strategy
            case WriterPreferring =>
              && ReadersWoken(s, e) == (if a.write.room.queue == [] then listed else 0)
              && WritersWoken(s, e) == 1 && PhaseAfter(s, e) == phase
            case ReaderPreferring =>
              && ReadersWoken(s, e) == listed
              && WritersWoken(s, e) == (if listed == 0 then 1 else 0) && PhaseAfter(s, e) == phase
            case _ =>
              if listed == 0 then ReadersWoken(s, e) == 0 && WritersWoken(s, e) == 1 && PhaseAfter(s, e) == phase
              else
                && WritersWoken(s, e) == 0
                && PhaseAfter(s, e) == (a.cfg.strategy.ReaderPhaseFair? || a.read.room.inside != map[],
                                        if a.cfg.strategy.StrictFair? then a.read.tickets else a.cutoff)
                && ReadersWoken(s, e) == (if a.writerActive then 0
                                          else if a.cfg.strategy.StrictFair? then |a.read.room.inside|
                                          else |a.read.room.queue|)
  {
    AllReserved(a);
    ListedWaits(a.read);
    hide OutcomeOf, OwnRoom, EndsWriting, PlainWriterStays, LedgerOK, Reserved;
  }

  // A phase opened now is for every waiting reader.
  lemma AllReserved(a: State)
    requires LedgerOK(a)
    ensures Reserved(a.read.room, a.read.tickets) == a.read.room.inside.Keys
    ensures |Reserved(a.read.room, a.read.tickets)| == |a.read.room.inside|
  {
    assert Reserved(a.read.room, a.read.tickets) == a.read.room.inside.Keys;
  }

  lemma WriterLeftHands(s: State, e: Event, a: State)
    requires Enabled(s, e) && OnlyMoved(s, e, a) && LedgerOK(a)
    requires CauseOf(s, e).WriterGaveUp? || CauseOf(s, e).WriteEnded?
    requires Next(s, e) == OnWriterAbort(a)
    ensures Hands(s, e)
  {
    WriterLeftTable(s, e, a);
    hide Inv, Exec, OutcomeOf, Ends, OwnRoom, OnWriterAbort, LedgerOK, StartReaderPhase;
    hide CauseOf, ReadersWoken, WritersWoken, PhaseAfter, PlainWriterStays;
    WriterAbortEnds(a);
    if IsFair(a) {
      StartPhaseEnds(a);
    }
    HandsFrom(s, e, a, OnWriterAbort(a));
  }

  lemma WriterGaveUpHands(s: State, e: Event)
    requires Inv(s) && Enabled(s, e) && CauseOf(s, e).WriterGaveUp? && Exec(s, e).1 == OutcomeOf(s, e)
    ensures Hands(s, e)
  {
    WriterGaveUpIs(s, e);
    AwakeFacts(s, e);
    WaiterIs(s, e);
    LeavesOwnRoom(s, e);
    hide Inv, Exec, OutcomeOf, Awake, OwnRoom, CauseOf, OnWriterAbort, OnlyMoved, LedgerOK;
    LeaveLedger(Awake(s, e), e.t, Write);
    WriterLeftHands(s, e, Leave(Awake(s, e), e.t, Write));
  }

  lemma WriterGaveUpIs(s: State, e: Event)
    requires Enabled(s, e) && CauseOf(s, e).WriterGaveUp?
    ensures (e.Expire? || e.Abort?) && e.side == Write && OutcomeOf(s, e) == Abandoned
  {}

  lemma ReaderGaveUpIs(s: State, e: Event)
    requires Enabled(s, e) && CauseOf(s, e).ReaderGaveUp?
    ensures (e.Expire? || e.Abort?) && e.side == Read && OutcomeOf(s, e) == Abandoned
  {}

  lemma ReaderGaveUpTable(s: State, e: Event, a: State)
    requires Enabled(s, e) && OnlyMoved(s, e, a) && CauseOf(s, e).ReaderGaveUp?
    requires a.readersActive == s.readersActive
    ensures var phase := (a.readersTurn, a.cutoff);
            var left := if a.cfg.strategy.StrictFair? then Reserved(a.read.room, a.cutoff) else a.read.room.inside.Keys;
            match a.cfg.strategy
            case WriterPreferring => ReadersWoken(s, e) == 0 && WritersWoken(s, e) == 0 && PhaseAfter(s, e) == phase
            case ReaderPreferring =>
              && ReadersWoken(s, e) == 0 && PhaseAfter(s, e) == phase
              && WritersWoken(s, e) == (if a.read.room.inside == map[] && a.readersActive == 0 then 1 else 0)
            case _ =>
              if a.readersTurn && left == {} && a.readersActive == 0
              then && ReadersWoken(s, e) == 0 && WritersWoken(s, e) == 1
                   && PhaseAfter(s, e) == (false, if a.cfg.strategy.StrictFair? then 0 else a.cutoff)
              else && WritersWoken(s, e) == 0 && PhaseAfter(s, e) == phase
                   && ReadersWoken(s, e) == (if a.readersTurn && (a.cfg.strategy.StrictFair? || a.readersActive == 0)
                                             then Width(a) else 0)
  {
    hide OutcomeOf, OwnRoom, EndsWriting, PlainWriterStays, Reserved;
  }

  lemma ReaderGaveUpHands(s: State, e: Event)
    requires Inv(s) && Enabled(s, e) && CauseOf(s, e).ReaderGaveUp? && Exec(s, e).1 == OutcomeOf(s, e)
    ensures Hands(s, e)
  {
    ReaderGaveUpIs(s, e);
    AwakeFacts(s, e);
    WaiterIs(s, e);
    var w := Awake(s, e);
    var a := Leave(w, e.t, Read);
    LeavesOwnRoom(s, e);
    ReaderGaveUpTable(s, e, a);
    hide Inv, Exec, OutcomeOf, Awake, OwnRoom, CauseOf, LedgerOK, Ends, Abandon, FinishOrContinue, Leave;
    hide ReadersWoken, WritersWoken, PhaseAfter, PlainWriterStays, Width, Reserved;
    if s.cfg.strategy.StrictFair? {
      StrictAbandonEnds(w, e.t);
    } else {
      ReaderAbandonEnds(w, e.t);
      if s.cfg.strategy.ReaderPhaseFair? {
        LeaveLedger(w, e.t, Read);
        NoPending(w, e.t);
        FinishEnds(a);
      }
    }
    HandsFrom(s, e, a, Next(s, e));
  }

  lemma NoPending(w: State, t: ThreadId)
    requires Inv(w) && Inside(w, Read, t) && w.cfg.strategy.ReaderPhaseFair?
    ensures PhaseCount(Leave(w, t, Read))
  {}

  lemma WaiterHands(s: State, e: Event)
    requires Inv(s) && Enabled(s, e) && (e.Resume? || e.Expire? || e.Abort?)
    ensures Hands(s, e)
  {
    hide Inv, Exec, Hands, OwnRoom, LetThrough;
    OutcomeExactly(s, e);
    if OutcomeOf(s, e) == Waiting {
      ParkHands(s, e);
    } else if OutcomeOf(s, e) == Granted {
      if e.side == Read {
        ReaderGrantHands(s, e);
      } else {
        WriterGrantHands(s, e);
      }
    } else if e.side == Read {
      ReaderGaveUpHands(s, e);
    } else {
      WriterGaveUpHands(s, e);
    }
  }

  // ---- Holders ----

  lemma CancelHands(s: State, e: Event)
    requires Inv(s) && Enabled(s, e) && (e.Cancel? || e.ResetMarker?)
    ensures Hands(s, e)
  {
    NextRooms(s, e);
    hide Inv;
    UnrelatedHands(s, e);
  }

  // A release that ends no hold of the lock's last reader or of its writer.
  lemma QuietRelease(s: State, e: Event)
    requires Inv(s) && Enabled(s, e) && e.Release? && CauseOf(s, e).Unrelated?
    ensures Next(s, e).read.room == s.read.room && Next(s, e).write.room == s.write.room
    ensures Next(s, e).readersTurn == s.readersTurn && Next(s, e).cutoff == s.cutoff
  {
    QuietReleaseIs(s, e);
    hide Inv, Exec, ReleaseReadCore, CauseOf;
  }

  // It fails, or only lowers a depth.
  lemma QuietReleaseIs(s: State, e: Event)
    requires Inv(s) && Enabled(s, e) && e.Release? && CauseOf(s, e).Unrelated?
    ensures Next(s, e) == s.(readersActive := Next(s, e).readersActive, readerOwners := Next(s, e).readerOwners,
                             writeCount := Next(s, e).writeCount, marker := Next(s, e).marker)
  {
    var s1 := if e.side == Write && s.marker == Some(e.t) then s.(marker := None) else s;
    UnmarkInv(s);
    UnrelatedRelease(s, e);
    InnerReadRelease(s1, e.t);
    InnerWriteRelease(s1, e.t);
    hide Inv, ReleaseReadCore, ReleaseWriteCore, CauseOf;
  }

  lemma UnrelatedRelease(s: State, e: Event)
    requires Inv(s) && Enabled(s, e) && e.Release? && CauseOf(s, e).Unrelated?
    ensures e.t in s.readerOwners && (e.side == Read || s.marker == Some(e.t)) ==> s.readersActive != 1
    ensures e.side == Write && !(e.t in s.readerOwners && s.marker == Some(e.t)) && HasWriter(s) ==>
              s.cfg.reentrant && (Writer(s) == Some(e.t) ==> s.writeCount != 1)
  {
    ReadersFacts(s);
  }

  lemma InnerReadRelease(s: State, t: ThreadId)
    requires Inv(s)
    ensures ReleaseReadCore(s, t).Some? <==> t in s.readerOwners
    ensures t in s.readerOwners && s.readersActive != 1 ==>
              var v := ReleaseReadCore(s, t).value;
              v == s.(readersActive := v.readersActive, readerOwners := v.readerOwners)
  {
    ReadersFacts(s);
    if t in s.readerOwners {
      ReaderGoneLedger(s, t);
    }
  }

  lemma InnerWriteRelease(s: State, t: ThreadId)
    requires Inv(s)
    ensures !HasWriter(s) ==> ReleaseWriteCore(s, t) == None
    ensures s.cfg.reentrant && Writer(s) != Some(t) ==> ReleaseWriteCore(s, t) == None
    ensures s.cfg.reentrant && Writer(s) == Some(t) && s.writeCount != 1 ==>
              ReleaseWriteCore(s, t) == Some(s.(writeCount := s.writeCount - 1))
  {}

  // The last read hold is gone; the marker may have been used up on the way.
  lemma LastReadIs(s: State, e: Event)
    requires Inv(s) && Enabled(s, e) && CauseOf(s, e).LastReadEnded?
    ensures var s1 := if e.side == Write then s.(marker := None) else s;
            && e.t in s1.readerOwners && Inv(s1)
            && Next(s, e) == AfterLastReader(ReaderGone(s1, e.t)) && ReaderGone(s1, e.t).readersActive == 0
  {
    var s1 := if e.side == Write then s.(marker := None) else s;
    UnmarkInv(s);
    ReaderGoneLedger(s1, e.t);
    hide AfterLastReader, Inv;
  }

  lemma LastReadTable(s: State, e: Event, a: State)
    requires Enabled(s, e) && OnlyMoved(s, e, a) && CauseOf(s, e).LastReadEnded?
    ensures var phase := (a.readersTurn, a.cutoff);
            var left := if a.cfg.strategy.StrictFair? then Reserved(a.read.room, a.cutoff) else a.read.room.inside.Keys;
            if !IsFair(a) then ReadersWoken(s, e) == 0 && WritersWoken(s, e) == 1 && PhaseAfter(s, e) == phase
            else if a.readersTurn && left != {}
            then ReadersWoken(s, e) == Width(a) && WritersWoken(s, e) == 0 && PhaseAfter(s, e) == phase
            else && ReadersWoken(s, e) == 0 && WritersWoken(s, e) == 1
                 && PhaseAfter(s, e) == (false, if a.cfg.strategy.StrictFair? then 0 else a.cutoff)
  {
    hide OutcomeOf, OwnRoom, EndsWriting, PlainWriterStays, Reserved;
  }

  // Without a plain writer's end, a plain writer stays.
  lemma ReleasedMoves(s: State, e: Event)
    requires Inv(s) && Enabled(s, e) && CauseOf(s, e).LastReadEnded?
    ensures var s1 := if e.side == Write then s.(marker := None) else s;
            e.t in s1.readerOwners && OnlyMoved(s, e, ReaderGone(s1, e.t))
  {
    ReadersFacts(s);
  }

  lemma LastReadHands(s: State, e: Event)
    requires Inv(s) && Enabled(s, e) && CauseOf(s, e).LastReadEnded?
    ensures Hands(s, e)
  {
    LastReadCause(s, e);
    LastReadIs(s, e);
    ReleasedMoves(s, e);
    var s1 := if e.side == Write then s.(marker := None) else s;
    var a := ReaderGone(s1, e.t);
    ReaderGoneParts(s1, e.t);
    LastReadTable(s, e, a);
    hide Inv, Exec, OwnRoom, CauseOf, LedgerOK, Ends, AfterLastReader, ReaderGone;
    hide ReadersWoken, WritersWoken, PhaseAfter, PlainWriterStays, Width, Reserved;
    if IsFair(a) {
      FairLastReader(a);
      FinishEnds(a);
    } else {
      LastReaderEnds(a);
    }
    HandsFrom(s, e, a, Next(s, e));
  }

  lemma LastReadCause(s: State, e: Event)
    requires Enabled(s, e) && CauseOf(s, e).LastReadEnded?
    ensures e.Release?
  {}

  lemma ReaderGoneParts(s: State, t: ThreadId)
    requires Inv(s) && t in s.readerOwners
    ensures LedgerOK(ReaderGone(s, t)) && PhaseCount(ReaderGone(s, t))
  {
    ReaderGoneLedger(s, t);
  }

  lemma FairLastReader(a: State)
    requires IsFair(a) && a.readersActive == 0
    ensures AfterLastReader(a) == FinishOrContinue(a)
  {}

  lemma WriteEndedHands(s: State, e: Event)
    requires Inv(s) && Enabled(s, e) && CauseOf(s, e).WriteEnded?
    ensures Hands(s, e)
  {
    WriteEndedIs(s, e);
    WritingEndsExactlyWhen(s, e);
    FullReleaseIs(s, e);
    UnmarkInv(s);
    var s1 := if Next(s, e) == OnWriterAbort(WriterGone(s)) then s else s.(marker := None);
    WriterGoneLedger(s1);
    WriterGoneMoved(s, e, s1);
    hide Inv, Exec, OwnRoom, CauseOf, LedgerOK, OnWriterAbort, WriterGone, OnlyMoved;
    WriterLeftHands(s, e, WriterGone(s1));
  }

  lemma WriteEndedIs(s: State, e: Event)
    requires Enabled(s, e) && CauseOf(s, e).WriteEnded?
    ensures e.Release? && EndsWriting(s, e) && HasWriter(s)
  {}

  lemma WriterGoneMoved(s: State, e: Event, s1: State)
    requires Inv(s) && Enabled(s, e) && e.Release? && EndsWriting(s, e)
    requires s1 == s || s1 == s.(marker := None)
    ensures OnlyMoved(s, e, WriterGone(s1))
  {}

  lemma DemotedTable(s: State, e: Event, a: State)
    requires LedgerOK(a) && Enabled(s, e) && OnlyMoved(s, e, a) && CauseOf(s, e).Demoted?
    ensures var listed := |a.read.room.queue|; var phase := (a.readersTurn, a.cutoff);
            && WritersWoken(s, e) == 0
            && match a.cfg.strategy
               case WriterPreferring =>
                 ReadersWoken(s, e) == (if s.write.room.inside == map[] then listed else 0) && PhaseAfter(s, e) == phase
               case ReaderPreferring => ReadersWoken(s, e) == listed && PhaseAfter(s, e) == phase
               case _ =>
                 && PhaseAfter(s, e) == (a.cfg.strategy.ReaderPhaseFair? || a.read.room.inside != map[],
                                         if a.cfg.strategy.StrictFair? then a.read.tickets else a.cutoff)
                 && ReadersWoken(s, e) == (if a.writerActive then 0
                                           else if a.cfg.strategy.StrictFair? then |a.read.room.inside|
                                           else |a.read.room.queue|)
  {
    AllReserved(a);
    hide OutcomeOf, OwnRoom, EndsWriting, PlainWriterStays, LedgerOK, Reserved;
  }

  lemma DemotedIs(s: State, e: Event)
    requires Inv(s) && Enabled(s, e) && CauseOf(s, e).Demoted? && Exec(s, e).1 == OutcomeOf(s, e)
    ensures e.Downgrade? && DowngradeCore(s, e.t).Some?
    ensures var b := AfterDowngrade(Downgraded(s, e.t));
            && Next(s, e) == b.(marker := Some(e.t)) && LedgerOK(Downgraded(s, e.t))
    ensures OnlyMoved(s, e, Downgraded(s, e.t)) && Downgraded(s, e.t).write == s.write
  {
    assert e.Downgrade?;
    DowngradeMeans(s, e.t);
    DowngradedOK(s, e.t);
    hide AfterDowngrade, DowngradeCore, LedgerOK;
  }

  lemma DemotedHands(s: State, e: Event)
    requires Inv(s) && Enabled(s, e) && CauseOf(s, e).Demoted? && Exec(s, e).1 == OutcomeOf(s, e)
    ensures Hands(s, e)
  {
    DemotedIs(s, e);
    var a := Downgraded(s, e.t);
    hide Inv, Exec, OwnRoom, CauseOf, LedgerOK, Ends, AfterDowngrade, Downgraded, StartReaderPhase;
    hide ReadersWoken, WritersWoken, PhaseAfter, PlainWriterStays;
    DemotedTable(s, e, a);
    DowngradeEnds(a);
    if IsFair(a) {
      StartPhaseEnds(a);
    }
    HandsFrom(s, e, a, AfterDowngrade(a));
  }

  lemma FailedDowngrade(s: State, e: Event)
    requires Inv(s) && Enabled(s, e) && e.Downgrade? && Exec(s, e).1 == OutcomeOf(s, e) && !CauseOf(s, e).Demoted?
    ensures CauseOf(s, e).Unrelated? && Next(s, e) == s
  {
    DowngradeOutcome(s, e.t);
    hide DowngradeCore;
  }

  lemma HolderHands(s: State, e: Event)
    requires Inv(s) && Enabled(s, e) && (e.Release? || e.Downgrade?)
    ensures Hands(s, e)
  {
    OutcomeExactly(s, e);
    NextRooms(s, e);
    hide Inv, Exec, Hands, OutcomeOf;
    if e.Downgrade? {
      if CauseOf(s, e).Demoted? {
        DemotedHands(s, e);
      } else {
        FailedDowngrade(s, e);
        UnrelatedHands(s, e);
      }
    } else {
      match CauseOf(s, e)
      case LastReadEnded => LastReadHands(s, e);
      case WriteEnded => WriteEndedHands(s, e);
      case Unrelated =>
        QuietRelease(s, e);
        UnrelatedHands(s, e);
    }
  }

  // Every step wakes, on each side and in queue order, exactly as many callers as its cause
  // asks for, moves nobody else's entry, and opens, closes or keeps the phase as told.
  lemma StepHands(s: State, e: Event)
    requires Inv(s) && Enabled(s, e)
    ensures FifoWake(OwnRoom(s, e, Read), ReadersWoken(s, e), Next(s, e).read.room)
    ensures FifoWake(OwnRoom(s, e, Write), WritersWoken(s, e), Next(s, e).write.room)
    ensures (Next(s, e).readersTurn, Next(s, e).cutoff) == PhaseAfter(s, e)
  {
    hide Inv, Exec, FifoWake, OwnRoom, ReadersWoken, WritersWoken, PhaseAfter;
    match e
    case Arrive(_, _, _) => ArriveHands(s, e);
    case Resume(_, _) => WaiterHands(s, e);
    case Expire(_, _) => WaiterHands(s, e);
    case Abort(_, _) => WaiterHands(s, e);
    case Cancel(_, _) => CancelHands(s, e);
    case ResetMarker(_) => CancelHands(s, e);
    case Release(_, _) => HolderHands(s, e);
    case Downgrade(_) => HolderHands(s, e);
  }
}
