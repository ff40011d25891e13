// The joint scheduling invariant of all eight lock variants, and that every step keeps it.
module Invariant {
  import opened WaitQueues
  import opened LockModel
  import opened Ledger

  // Waiting readers whose ticket was handed out before the phase was opened.
  ghost function Reserved(r: Room, cutoff: int): set<ThreadId> {
    set t | t in r.inside && r.inside[t].ticket <= cutoff
  }

  // The reservation accounting alone.
  ghost predicate PhaseCount(s: State) {
    match s.cfg.strategy
    case WriterPreferring | ReaderPreferring => !s.readersTurn && s.pending == 0
    case ReaderPhaseFair => s.pending == 0
    case StrictFair =>
      if s.readersTurn then s.cutoff <= s.read.tickets && s.pending == |Reserved(s.read.room, s.cutoff)|
      else s.pending == 0
  }

  // A phase never hangs open: it has an active reader, or a waiting one it was opened for.
  ghost predicate PhaseOK(s: State) {
    PhaseCount(s) && (s.readersTurn ==> s.readersActive > 0 || PhaseBusy(s))
  }

  // What `_can_read(True, ticket)` asks of a caller without holds when there is no writer.
  predicate ReadGate(s: State, ticket: nat) {
    match s.cfg.strategy
    case WriterPreferring => s.write.waiting == 0
    case ReaderPreferring => true
    case ReaderPhaseFair => s.readersTurn || s.write.waiting == 0
    case StrictFair => s.write.waiting == 0 || (s.readersTurn && ticket <= s.cutoff && s.pending > 0)
  }

  ghost predicate ReadersBlocked(s: State) {
    !HasWriter(s) ==> forall t :: IsParked(s.read.room, t) ==> !ReadGate(s, Ticket(s, Read, t))
  }

  // What `_can_write` asks of a caller without holds.
  predicate WriteOpen(s: State) {
    && !HasWriter(s) && s.readersActive == 0
    && match s.cfg.strategy
       case WriterPreferring => true
       case ReaderPreferring => s.read.waiting == 0
       case ReaderPhaseFair => !(s.readersTurn && s.read.waiting > 0)
       case StrictFair => !(s.readersTurn && s.pending > 0)
  }

  ghost predicate WritersAwake(s: State) {
    WriteOpen(s) && s.write.room.inside != map[] ==> SomeAwake(s.write.room)
  }

  ghost predicate Inv(s: State) {
    LedgerOK(s) && PhaseOK(s) && ReadersBlocked(s) && WritersAwake(s)
  }

  lemma LedgerOf(s: State)
    requires Inv(s)
    ensures LedgerOK(s)
  {}

  // ---- Guards of waiting callers ----

  lemma WaiterGuards(s: State, t: ThreadId)
    requires LedgerOK(s) && Waits(s, t) && Writer(s) != Some(t)
    ensures forall k: nat :: CanRead(s, t, true, Some(k)) <==> !HasWriter(s) && ReadGate(s, k)
    ensures CanWrite(s, t) <==> WriteOpen(s)
  {
    ReadersFacts(s);
  }

  // ---- Wakeups ----

  lemma WokenParked(r: Room, r': Room)
    requires Woken(r, r')
    ensures forall t :: IsParked(r', t) ==> IsParked(r, t) && r'.inside[t].ticket == r.inside[t].ticket
    ensures SomeAwake(r) ==> SomeAwake(r')
  {
    if SomeAwake(r) {
      var t :| t in r.inside && !IsParked(r, t);
      assert !IsParked(r', t);
    }
  }

  lemma WokenReserved(r: Room, r': Room, cutoff: int)
    requires Woken(r, r')
    ensures Reserved(r', cutoff) == Reserved(r, cutoff)
  {}

  // Wakeups that leave the phase fields alone keep the scheduling invariant.
  lemma WokenInv(s: State, s': State)
    requires Quiet(s, s')
    requires s'.readersTurn == s.readersTurn && s'.cutoff == s.cutoff && s'.pending == s.pending
    ensures PhaseCount(s) ==> PhaseCount(s')
    ensures PhaseOK(s) ==> PhaseOK(s')
    ensures ReadersBlocked(s) ==> ReadersBlocked(s')
    ensures WritersAwake(s) ==> WritersAwake(s')
  {
    WokenParked(s.read.room, s'.read.room);
    WokenParked(s.write.room, s'.write.room);
    WokenReserved(s.read.room, s'.read.room, s.cutoff);
    assert s.write.room.inside == map[] ==> s'.write.room.inside.Keys == {};
  }

  lemma WakeWriterInv(s: State)
    requires LedgerOK(s)
    ensures LedgerOK(WakeWriter(s))
    ensures PhaseCount(s) ==> PhaseCount(WakeWriter(s))
    ensures PhaseOK(s) ==> PhaseOK(WakeWriter(s))
    ensures ReadersBlocked(s) ==> ReadersBlocked(WakeWriter(s))
    ensures WritersAwake(WakeWriter(s))
  {
    WakesQuiet(s);
    QuietLedger(s, WakeWriter(s));
    WokenInv(s, WakeWriter(s));
    NotifyWakes(s.write.room, 1);
    assert WakeWriter(s).write.room.inside.Keys == s.write.room.inside.Keys;
    assert s.write.room.inside == map[] ==> WakeWriter(s).write.room.inside.Keys == {};
  }

  // Without listed waiters nobody is parked.
  lemma EmptyQueue(r: Room)
    requires RoomOK(r) && r.queue == []
    ensures NoneParked(r)
    ensures r.inside != map[] ==> SomeAwake(r)
  {
    if r.inside != map[] {
      var t :| t in r.inside;
      assert !IsParked(r, t);
    }
  }

  lemma ListedWaits(p: Proxy)
    requires ProxyOK(p)
    ensures p.room.queue != [] ==> p.waiting > 0
    ensures p.waiting == 0 <==> p.room.inside == map[]
    ensures |p.room.queue| <= p.waiting
  {
    if p.room.queue != [] {
      assert p.room.queue[0] in p.room.inside;
    }
    QueueBound(p.room.queue, p.room.inside.Keys);
  }

  lemma {:induction false} QueueBound(q: seq<ThreadId>, keys: set<ThreadId>)
    requires Distinct(q) && forall t :: t in q ==> t in keys
    ensures |q| <= |keys|
  {
    if q != [] {
      assert q[0] in q;
      forall t | t in q[1..] ensures t in keys - {q[0]} {
        assert t in q;
      }
      QueueBound(q[1..], keys - {q[0]});
    }
  }

  lemma WakeReadersSettles(s: State)
    requires LedgerOK(s)
    ensures LedgerOK(WakeReaders(s)) && NoneParked(WakeReaders(s).read.room)
    ensures ReadersBlocked(WakeReaders(s))
    ensures PhaseOK(s) ==> PhaseOK(WakeReaders(s))
  {
    WakesQuiet(s);
    QuietLedger(s, WakeReaders(s));
    WokenInv(s, WakeReaders(s));
    NotifyWakes(s.read.room, |s.read.room.queue|);
  }

  lemma WakeWaitingReaderInv(s: State)
    requires LedgerOK(s)
    ensures LedgerOK(WakeWaitingReader(s))
    ensures PhaseCount(s) ==> PhaseCount(WakeWaitingReader(s))
    ensures PhaseOK(s) ==> PhaseOK(WakeWaitingReader(s))
    ensures ReadersBlocked(s) ==> ReadersBlocked(WakeWaitingReader(s))
    ensures WritersAwake(s) ==> WritersAwake(WakeWaitingReader(s))
    ensures PhaseBusy(WakeWaitingReader(s)) == PhaseBusy(s)
  {
    WakesQuiet(s);
    QuietLedger(s, WakeWaitingReader(s));
    WokenInv(s, WakeWaitingReader(s));
  }

  // How many readers a phase wakes: all of them (reader-phase fair), or as many as it has
  // slots for (strict fair); none while a plain writer is active.
  function PhaseWakes(s: State): nat {
    if s.writerActive then 0
    else if !s.cfg.strategy.StrictFair? then |s.read.room.queue|
    else if s.pending <= 0 || s.read.waiting <= 0 then 0
    else if s.read.waiting < s.pending then s.read.waiting else s.pending
  }

  // A phase wakes its readers in queue order, exactly that many, and touches nothing else.
  lemma PhaseWakesExactly(s: State)
    requires ProxyOK(s.read)
    ensures FifoWake(s.read.room, PhaseWakes(s), WakeWaitingReader(s).read.room)
    ensures WakeWaitingReader(s) == s.(read := s.read.(room := WakeWaitingReader(s).read.room))
  {
    hide FifoWake, WaitQueues.Notify;
    ListedWaits(s.read);
    NotifyIsFifo(s.read.room, PhaseWakes(s));
    if s.read.room.queue == [] || PhaseWakes(s) == 0 {
      NothingToWake(s.read.room, PhaseWakes(s));
    }
  }

  lemma NothingToWake(r: Room, n: int)
    requires r.queue == [] || n <= 0
    ensures WaitQueues.Notify(r, n) == r
  {}

  // ---- Opening and closing phases ----

  lemma StartPhaseSettles(s: State)
    requires LedgerOK(s) && (s.cfg.strategy.ReaderPhaseFair? || s.cfg.strategy.StrictFair?)
    requires s.read.waiting > 0 || s.readersActive > 0
    requires s.cfg.strategy.ReaderPhaseFair? ==> s.pending == 0
    ensures Inv(StartReaderPhase(s))
    ensures s.read.waiting > 0 ==> PhaseBusy(StartReaderPhase(s))
  {
    ListedWaits(s.read);
    ReadersFacts(s);
    if s.cfg.strategy.StrictFair? {
      var phase := s.(readersTurn := s.read.waiting > 0, pending := s.read.waiting, cutoff := s.read.tickets);
      assert Reserved(s.read.room, phase.cutoff) == s.read.room.inside.Keys;
      StartedPhase(s, phase);
      if s.read.waiting == 0 {
        EmptyQueue(s.read.room);
      }
      NotifyWakes(s.read.room, s.read.waiting);
    } else {
      StartedPhase(s, s.(readersTurn := true));
      NotifyWakes(s.read.room, |s.read.room.queue|);
    }
    if s.read.room.queue == [] {
      EmptyQueue(s.read.room);
    }
  }

  lemma StartedPhase(s: State, phase: State)
    requires LedgerOK(s) && PhaseOK(phase)
    requires phase == s.(readersTurn := phase.readersTurn, pending := phase.pending, cutoff := phase.cutoff)
    ensures LedgerOK(phase) && LedgerOK(WakeWaitingReader(phase)) && PhaseOK(WakeWaitingReader(phase))
    ensures PhaseBusy(WakeWaitingReader(phase)) == PhaseBusy(phase)
    ensures WritersAwake(phase) ==> WritersAwake(WakeWaitingReader(phase))
  {
    PhaseFieldsLedger(s, phase);
    WakeWaitingReaderInv(phase);
  }

  lemma FinishSettles(s: State)
    requires LedgerOK(s) && PhaseCount(s) && ReadersBlocked(s) && s.readersActive == 0
    requires s.cfg.strategy.ReaderPhaseFair? || s.cfg.strategy.StrictFair?
    ensures Inv(FinishOrContinue(s))
  {
    ListedWaits(s.read);
    ListedWaits(s.write);
    if PhaseBusy(s) {
      WakeWaitingReaderInv(s);
    } else {
      var closed := if s.cfg.strategy.StrictFair? then s.(readersTurn := false, cutoff := 0, pending := 0)
                    else s.(readersTurn := false);
      PhaseFieldsLedger(s, closed);
      assert forall k: nat :: ReadGate(closed, k) ==> ReadGate(s, k);
      if closed.write.room.queue == [] {
        EmptyQueue(closed.write.room);
      } else {
        WakeWriterInv(closed);
      }
    }
  }

  // ---- The shared endings of the steps ----

  lemma WriterAbortSettles(s: State)
    requires LedgerOK(s) && PhaseOK(s)
    ensures Inv(OnWriterAbort(s))
  {
    ListedWaits(s.read);
    ListedWaits(s.write);
    if s.read.room.queue == [] {
      EmptyQueue(s.read.room);
    }
    if s.write.room.queue == [] {
      EmptyQueue(s.write.room);
    }
    if OnWriterAbort(s) == WakeWriter(s) {
      WakeWriterInv(s);
    }
    match s.cfg.strategy
    case WriterPreferring =>
      WakeReadersSettles(s);
    case ReaderPreferring =>
      WakeReadersSettles(s);
    case ReaderPhaseFair | StrictFair =>
      if s.read.waiting > 0 && s.read.room.queue != [] {
        StartPhaseSettles(s);
      }
  }

  lemma LastReaderSettles(s: State)
    requires LedgerOK(s) && PhaseCount(s) && ReadersBlocked(s)
    ensures Inv(AfterLastReader(s))
  {
    ReadersFacts(s);
    if s.readersActive == 0 {
      match s.cfg.strategy
      case WriterPreferring | ReaderPreferring =>
        if s.write.room.queue == [] {
          EmptyQueue(s.write.room);
        } else {
          WakeWriterInv(s);
        }
      case ReaderPhaseFair | StrictFair =>
        FinishSettles(s);
    }
  }

  lemma DowngradeSettles(s: State)
    requires LedgerOK(s) && PhaseCount(s) && !HasWriter(s) && s.readersActive > 0
    ensures Inv(AfterDowngrade(s))
  {
    ListedWaits(s.read);
    if s.read.room.queue == [] {
      EmptyQueue(s.read.room);
    }
    match s.cfg.strategy
    case WriterPreferring | ReaderPreferring =>
      WakeReadersSettles(s);
    case ReaderPhaseFair | StrictFair =>
      StartPhaseSettles(s);
  }
}
