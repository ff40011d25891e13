// The bookkeeping invariant: counters agree with the callers they count, holders exclude
// each other, and nobody waits while holding the lock in a way that blocks itself.
module Ledger {
  import opened WaitQueues
  import opened LockModel

  // ---- Sum of the per-owner read depths ----

  ghost function Sum(m: map<ThreadId, int>): int
    decreases |m|
  {
    if m == map[] then 0
    else
      var k :| k in m;
      MapMinus(m, k);
      m[k] + Sum(m - {k})
  }

  lemma MapMinus<V>(m: map<ThreadId, V>, k: ThreadId)
    requires k in m
    ensures |m - {k}| == |m| - 1
  {
    assert (m - {k}).Keys == m.Keys - {k};
    assert |m.Keys| == |m| && |(m - {k}).Keys| == |m - {k}|;
  }

  lemma {:induction false} SumRemove(m: map<ThreadId, int>, k: ThreadId)
    requires k in m
    ensures Sum(m) == m[k] + Sum(m - {k})
    decreases |m|
  {
    var j :| j in m && Sum(m) == m[j] + Sum(m - {j});
    if j != k {
      MapMinus(m, j);
      MapMinus(m, k);
      SumRemove(m - {j}, k);
      SumRemove(m - {k}, j);
      assert m - {j} - {k} == m - {k} - {j};
    }
  }

  lemma SumUpdate(m: map<ThreadId, int>, k: ThreadId, v: int)
    ensures Sum(m[k := v]) == Sum(m) + v - (if k in m then m[k] else 0)
  {
    SumRemove(m[k := v], k);
    assert m[k := v] - {k} == m - {k};
    if k in m {
      SumRemove(m, k);
    } else {
      assert m - {k} == m;
    }
  }

  ghost predicate Positive(m: map<ThreadId, int>) {
    forall t :: t in m ==> m[t] > 0
  }

  lemma {:induction false} SumPositive(m: map<ThreadId, int>)
    requires Positive(m)
    ensures Sum(m) >= 0 && (Sum(m) == 0 <==> m == map[])
    ensures forall t :: t in m ==> Sum(m) >= m[t]
    decreases |m|
  {
    if m != map[] {
      forall t | t in m ensures Sum(m) >= m[t] && Sum(m) > 0 {
        MapMinus(m, t);
        SumRemove(m, t);
        SumPositive(m - {t});
      }
      var t :| t in m;
    }
  }

  // ---- The invariant ----

  // `those_waiting` counts the callers inside the loop and tickets were handed out to them.
  ghost predicate ProxyOK(p: Proxy) {
    && RoomOK(p.room)
    && p.waiting == |p.room.inside|
    && (forall t :: t in p.room.inside ==> 1 <= p.room.inside[t].ticket <= p.tickets)
  }

  ghost predicate NoneCancelling(r: Room) {
    forall t :: t in r.inside ==> !r.inside[t].status.Cancelling?
  }

  ghost predicate RoomsOK(s: State) {
    && ProxyOK(s.read) && ProxyOK(s.write)
    && (s.cfg.runtime.Threads? ==> NoneCancelling(s.read.room) && NoneCancelling(s.write.room))
  }

  // `_readers_active` is the sum of the strictly positive `_reader_owners` entries.
  ghost predicate ReadersOK(s: State) {
    s.readersActive == Sum(s.readerOwners) && Positive(s.readerOwners)
  }

  // A writer excludes readers (plain), or readers other than itself (reentrant).
  ghost predicate WriterOK(s: State) {
    if s.cfg.reentrant then
      && !s.writerActive && s.writerOwner == None
      && s.writeCount >= 0 && (s.writeCount == 0 <==> s.writerId == None)
      && (s.writerId.Some? ==> forall t :: t in s.readerOwners ==> t == s.writerId.value)
    else
      && s.writerId == None && s.writeCount == 0
      && (s.writerActive <==> s.writerOwner.Some?)
      && (s.writerActive ==> s.readerOwners == map[])
  }

  // Callers wait on one side only, and never while holding a read, or (reentrant) anything.
  ghost predicate WaitersOK(s: State) {
    && s.read.room.inside.Keys !! s.write.room.inside.Keys
    && (forall t :: Waits(s, t) ==>
          && t !in s.readerOwners && t !in s.clearing
          && (s.cfg.reentrant ==> s.writerId != Some(t)))
  }

  ghost predicate MarkerOK(s: State) {
    && (s.cfg.runtime.Tasks? ==> s.clearing == {})
    && (s.cfg.reentrant ==> forall t :: t in s.clearing ==> s.writerId == Some(t))
    && (forall t :: IsCurrentWriter(s, t) && t !in s.clearing ==> s.marker != Some(t))
  }

  ghost predicate LedgerOK(s: State) {
    RoomsOK(s) && ReadersOK(s) && WriterOK(s) && WaitersOK(s) && MarkerOK(s)
  }

  lemma ReadersFacts(s: State)
    requires ReadersOK(s)
    ensures s.readersActive >= 0 && (s.readersActive == 0 <==> s.readerOwners == map[])
    ensures forall t :: t in s.readerOwners ==> s.readersActive > 0 && IsCurrentReader(s, t)
    ensures forall t :: IsCurrentReader(s, t) <==> t in s.readerOwners
  {
    SumPositive(s.readerOwners);
  }

  // ---- Rooms ----

  lemma EnterOK(p: Proxy, t: ThreadId)
    requires ProxyOK(p) && t !in p.room.inside
    ensures ProxyOK(EnterRoom(p, t))
    ensures EnterRoom(p, t).room.inside.Keys == p.room.inside.Keys + {t}
  {}

  lemma LeaveOK(p: Proxy, t: ThreadId)
    requires ProxyOK(p) && t in p.room.inside && t !in p.room.queue
    ensures ProxyOK(LeaveRoom(p, t))
    ensures LeaveRoom(p, t).room.inside.Keys == p.room.inside.Keys - {t}
  {
    MapMinus(p.room.inside, t);
  }

  lemma ParkOK(p: Proxy, t: ThreadId)
    requires ProxyOK(p) && t in p.room.inside && p.room.inside[t].status.Signalled?
    ensures ProxyOK(ParkIn(p, t))
    ensures ParkIn(p, t).room.inside.Keys == p.room.inside.Keys
  {
    assert t !in p.room.queue;
    assert forall u :: u in ParkIn(p, t).room.queue <==> u == t || u in p.room.queue;
  }

  lemma CancelOK(p: Proxy, t: ThreadId)
    requires ProxyOK(p) && t in p.room.inside
    ensures var p' := p.(room := p.room.(inside := p.room.inside[t := p.room.inside[t].(status := Cancelling)]));
            ProxyOK(p') && p'.room.inside.Keys == p.room.inside.Keys
  {
    var inside := p.room.inside[t := p.room.inside[t].(status := Cancelling)];
    assert inside.Keys == p.room.inside.Keys;
    assert |p.room.inside| == |p.room.inside.Keys| == |inside.Keys| == |inside|;
  }

  lemma WakeUpOK(p: Proxy, t: ThreadId)
    requires ProxyOK(p) && t in p.room.inside
    ensures ProxyOK(WakeUp(p, t)) && t !in WakeUp(p, t).room.queue
    ensures WakeUp(p, t).room.inside.Keys == p.room.inside.Keys
  {
    DiscardRemoves(p.room.queue, t);
  }

  // ---- Steps that only wake waiters and move the phase fields ----

  ghost predicate Quiet(s: State, s': State) {
    && s' == s.(readersTurn := s'.readersTurn, cutoff := s'.cutoff, pending := s'.pending,
                read := s'.read, write := s'.write)
    && s'.read.waiting == s.read.waiting && s'.read.tickets == s.read.tickets
    && s'.write.waiting == s.write.waiting && s'.write.tickets == s.write.tickets
    && Woken(s.read.room, s'.read.room) && Woken(s.write.room, s'.write.room)
    && RoomOK(s'.read.room) && RoomOK(s'.write.room)
  }

  ghost predicate RoomsOpen(s: State) {
    RoomOK(s.read.room) && RoomOK(s.write.room)
  }

  lemma LedgerRooms(s: State)
    requires LedgerOK(s)
    ensures RoomsOpen(s)
  {}

  lemma WakesQuiet(s: State)
    requires RoomsOpen(s)
    ensures Quiet(s, WakeReaders(s)) && Quiet(s, WakeWriter(s)) && Quiet(s, WakeWaitingReader(s))
  {
    var readers := NotifyAll(s.read.room);
    var count := if s.read.waiting < s.pending then s.read.waiting else s.pending;
    NotifyWakes(s.read.room, |s.read.room.queue|);
    NotifyWakes(s.read.room, count);
    NotifyWakes(s.write.room, 1);
    RoomQuiet(s, s.read.room, s.write.room);
    RoomQuiet(s, NotifyAll(s.read.room), s.write.room);
    RoomQuiet(s, WaitQueues.Notify(s.read.room, count), s.write.room);
    RoomQuiet(s, s.read.room, WaitQueues.Notify(s.write.room, 1));
    hide Quiet, Woken, RoomOK, WaitQueues.Notify, NotifyAll;
    assert s == s.(read := s.read.(room := s.read.room), write := s.write.(room := s.write.room));
    assert WakeReaders(s) == s.(read := s.read.(room := NotifyAll(s.read.room)),
                                write := s.write.(room := s.write.room));
    assert WakeWriter(s) == s.(read := s.read.(room := s.read.room),
                               write := s.write.(room := WaitQueues.Notify(s.write.room, 1)));
  }

  lemma RoomQuiet(s: State, readers: Room, writers: Room)
    requires RoomOK(readers) && RoomOK(writers)
    requires Woken(s.read.room, readers) && Woken(s.write.room, writers)
    ensures Quiet(s, s.(read := s.read.(room := readers), write := s.write.(room := writers)))
  {}

  lemma PhasesQuiet(s: State)
    requires RoomsOpen(s)
    ensures Quiet(s, StartReaderPhase(s)) && Quiet(s, FinishOrContinue(s))
  {
    var turned := s.(readersTurn := true);
    var strict := s.(readersTurn := s.read.waiting > 0, pending := s.read.waiting, cutoff := s.read.tickets);
    var closed := if s.cfg.strategy.StrictFair? then s.(readersTurn := false, cutoff := 0, pending := 0)
                  else s.(readersTurn := false);
    WakesQuiet(s);
    WakesQuiet(turned);
    WakesQuiet(strict);
    WakesQuiet(closed);
  }

  lemma AbortsQuiet(s: State, ticket: nat)
    requires RoomsOpen(s)
    ensures Quiet(s, OnWriterAbort(s)) && Quiet(s, OnReaderAbort(s, ticket))
  {
    hide WakeWaitingReader, FinishOrContinue, StartReaderPhase, WakeReaders, WakeWriter, Quiet, RoomsOpen;
    QuietSelf(s);
    WakesQuiet(s);
    PhasesQuiet(s);
    ReaderAbortQuiet(s, ticket);
  }

  lemma ReaderAbortQuiet(s: State, ticket: nat)
    requires RoomsOpen(s)
    ensures Quiet(s, OnReaderAbort(s, ticket))
  {
    var slot := s.(pending := s.pending - 1);
    assert RoomsOpen(slot);
    hide WakeWaitingReader, FinishOrContinue, StartReaderPhase, WakeReaders, WakeWriter, Quiet, RoomsOpen;
    QuietSelf(s);
    WakesQuiet(s);
    PhasesQuiet(s);
    WakesQuiet(slot);
    PhasesQuiet(slot);
    SlotQuiet(s, slot, slot);
    SlotQuiet(s, slot, WakeWaitingReader(slot));
    SlotQuiet(s, slot, FinishOrContinue(slot));
  }

  lemma QuietSelf(s: State)
    requires RoomsOpen(s)
    ensures Quiet(s, s)
  {}

  // Using up or giving back a reserved slot first changes only a phase field.
  lemma SlotQuiet(s: State, slot: State, s': State)
    requires RoomsOpen(s) && slot == s.(pending := slot.pending) && (s' == slot || Quiet(slot, s'))
    ensures Quiet(s, s')
  {}

  lemma AftersQuiet(s: State)
    requires RoomsOpen(s)
    ensures Quiet(s, AfterLastReader(s)) && Quiet(s, AfterDowngrade(s))
  {
    WakesQuiet(s);
    PhasesQuiet(s);
  }

  lemma AcquireReadQuiet(s: State, t: ThreadId, waiting: bool, ticket: Option<nat>)
    requires RoomsOpen(s)
    ensures Quiet(RecordReaderAcquire(s, t), AcquireReadCore(s, t, waiting, ticket))
  {
    hide WakeWaitingReader, WakeReaders, WakeWriter, RoomOK;
    var slot := s.(pending := s.pending - 1);
    WakesQuiet(RecordReaderAcquire(s, t));
    WakesQuiet(RecordReaderAcquire(slot, t));
  }

  lemma QuietLedger(s: State, s': State)
    requires LedgerOK(s) && Quiet(s, s')
    ensures LedgerOK(s')
  {
    QuietProxy(s.read, s'.read);
    QuietProxy(s.write, s'.write);
  }

  lemma PhaseFieldsLedger(s: State, s': State)
    requires LedgerOK(s)
    requires s' == s.(readersTurn := s'.readersTurn, cutoff := s'.cutoff, pending := s'.pending)
    ensures LedgerOK(s')
  {}

  lemma QuietProxy(p: Proxy, p': Proxy)
    requires ProxyOK(p) && p'.waiting == p.waiting && p'.tickets == p.tickets
    requires Woken(p.room, p'.room) && RoomOK(p'.room)
    ensures ProxyOK(p')
  {
    assert |p.room.inside| == |p.room.inside.Keys| == |p'.room.inside.Keys| == |p'.room.inside|;
  }

  // ---- Base changes ----

  // A caller that is made to wait holds no read, and in reentrant variants nothing at all.
  lemma BlockedHoldsNothing(s: State, t: ThreadId, side: Side)
    requires LedgerOK(s) && !CanAcquire(s, t, side, false, None)
    requires side == Write ==> !UpgradeRefused(s, t)
    ensures t !in s.readerOwners
    ensures s.cfg.reentrant ==> s.writerId != Some(t)
  {
    ReadersFacts(s);
  }

  lemma EnterLedger(s: State, t: ThreadId, side: Side)
    requires LedgerOK(s) && Free(s, t) && !CanAcquire(s, t, side, false, None)
    requires side == Write ==> !UpgradeRefused(s, t)
    ensures LedgerOK(Enter(s, t, side))
  {
    BlockedHoldsNothing(s, t, side);
    EnterOK(ProxyOf(s, side), t);
  }

  lemma ParkLedger(s: State, t: ThreadId, side: Side)
    requires LedgerOK(s) && Inside(s, side, t) && StatusOf(s, side, t).Signalled?
    ensures LedgerOK(Park(s, t, side))
  {
    ParkOK(ProxyOf(s, side), t);
    SamePeopleLedger(s, side, ParkIn(ProxyOf(s, side), t));
    hide LedgerOK;
  }

  // A room changes, but not who is inside.
  lemma SamePeopleLedger(s: State, side: Side, p: Proxy)
    requires LedgerOK(s) && ProxyOK(p) && p.room.inside.Keys == ProxyOf(s, side).room.inside.Keys
    requires s.cfg.runtime.Threads? ==> NoneCancelling(p.room)
    ensures LedgerOK(WithProxy(s, side, p))
  {
    hide ProxyOK, Sum, Positive;
  }

  lemma RouseLedger(s: State, t: ThreadId, side: Side)
    requires LedgerOK(s) && Inside(s, side, t)
    ensures LedgerOK(Rouse(s, t, side))
    ensures Inside(Rouse(s, t, side), side, t) && StatusOf(Rouse(s, t, side), side, t).Signalled?
    ensures Ticket(Rouse(s, t, side), side, t) == Ticket(s, side, t)
  {
    WakeUpOK(ProxyOf(s, side), t);
    SamePeopleLedger(s, side, WakeUp(ProxyOf(s, side), t));
    hide LedgerOK, Discard;
  }

  lemma SignalledUnlisted(p: Proxy, t: ThreadId)
    requires ProxyOK(p) && t in p.room.inside && p.room.inside[t].status.Signalled?
    ensures t !in p.room.queue
  {}

  lemma LeaveLedger(s: State, t: ThreadId, side: Side)
    requires LedgerOK(s) && Inside(s, side, t) && StatusOf(s, side, t).Signalled?
    ensures LedgerOK(Leave(s, t, side))
    ensures !Waits(Leave(s, t, side), t)
  {
    hide Sum, Positive, ProxyOK;
    SignalledUnlisted(ProxyOf(s, side), t);
    LeaveOK(ProxyOf(s, side), t);
  }

  lemma CancelLedger(s: State, t: ThreadId, side: Side)
    requires LedgerOK(s) && s.cfg.runtime.Tasks? && Inside(s, side, t) && !StatusOf(s, side, t).Cancelling?
    ensures LedgerOK(CancelStep(s, t, side))
  {
    var p := ProxyOf(s, side);
    CancelOK(p, t);
    var inside := p.room.inside[t := p.room.inside[t].(status := Cancelling)];
    SamePeopleLedger(s, side, p.(room := p.room.(inside := inside)));
    hide LedgerOK;
  }

  lemma RecordLedger(s: State, t: ThreadId)
    requires LedgerOK(s) && !Waits(s, t)
    requires !HasWriter(s) || (s.cfg.reentrant && IsCurrentWriter(s, t))
    ensures LedgerOK(RecordReaderAcquire(s, t))
  {
    SumUpdate(s.readerOwners, t, ReadDepth(s, t) + 1);
  }

  ghost function ReaderGone(s: State, t: ThreadId): State
    requires t in s.readerOwners
  {
    var owners := if ReadDepth(s, t) == 1 then s.readerOwners - {t}
                  else s.readerOwners[t := ReadDepth(s, t) - 1];
    s.(readerOwners := owners, readersActive := s.readersActive - 1)
  }

  lemma ReaderGoneLedger(s: State, t: ThreadId)
    requires LedgerOK(s) && t in s.readerOwners
    ensures LedgerOK(ReaderGone(s, t))
    ensures ReleaseReadCore(s, t) == Some(AfterLastReader(ReaderGone(s, t)))
  {
    hide RoomsOK, ReadersOK, AfterLastReader;
    ReaderGoneReaders(s, t);
    ReaderGoneRooms(s, t);
  }

  lemma ReaderGoneReaders(s: State, t: ThreadId)
    requires ReadersOK(s) && t in s.readerOwners
    ensures ReadersOK(ReaderGone(s, t)) && ReadDepth(s, t) > 0
  {
    SumUpdate(s.readerOwners, t, ReadDepth(s, t) - 1);
    SumRemove(s.readerOwners, t);
  }

  lemma ReaderGoneRooms(s: State, t: ThreadId)
    requires RoomsOK(s) && t in s.readerOwners
    ensures RoomsOK(ReaderGone(s, t))
  {}

  ghost function WriterGone(s: State): State {
    if s.cfg.reentrant then s.(writeCount := 0, writerId := None)
    else s.(writerActive := false, writerOwner := None)
  }

  lemma WriterGoneLedger(s: State)
    requires LedgerOK(s) && (s.cfg.reentrant ==> s.clearing == {})
    ensures LedgerOK(WriterGone(s)) && !HasWriter(WriterGone(s))
  {
  }

  lemma GrantWriteOwner(s: State, t: ThreadId)
    requires LedgerOK(s) && CanWrite(s, t)
    ensures WriterOK(AcquireWriteCore(s, t))
  {
    ReadersFacts(s);
  }

  lemma GrantWriteLedger(s: State, t: ThreadId)
    requires LedgerOK(s) && Free(s, t) && CanWrite(s, t)
    ensures LedgerOK(AfterGrant(AcquireWriteCore(s, t), t, Write))
  {
    hide ProxyOK, NoneCancelling, Sum, Positive;
    ReadersFacts(s);
    GrantWriteOwner(s, t);
  }
}
