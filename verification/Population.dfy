// How the steps change the number of callers inside the wait loops, and who of them is being
// cancelled.
module Population {
  import opened WaitQueues
  import opened LockModel
  import opened Ledger
  import opened Invariant
  import opened Preservation

  ghost function WithStatus(r: Room, status: Status): set<ThreadId> {
    set t | t in r.inside && r.inside[t].status == status
  }

  ghost function Count(s: State, status: Status): nat {
    |WithStatus(s.read.room, status)| + |WithStatus(s.write.room, status)|
  }

  // Callers inside the wait loops.
  function Crowd(s: State): int {
    s.read.waiting + s.write.waiting
  }

  lemma CountBound(s: State, status: Status)
    requires LedgerOK(s)
    ensures Count(s, status) <= Crowd(s)
  {
    SubsetSize(WithStatus(s.read.room, status), s.read.room.inside.Keys);
    SubsetSize(WithStatus(s.write.room, status), s.write.room.inside.Keys);
  }

  lemma {:induction false} SubsetSize(a: set<ThreadId>, b: set<ThreadId>)
    requires a <= b
    ensures |a| <= |b|
  {
    assert b == a + (b - a);
  }

  lemma QuietCount(s: State, s': State)
    requires Quiet(s, s')
    ensures Crowd(s') == Crowd(s) && Count(s', Cancelling) == Count(s, Cancelling)
  {
    assert WithStatus(s'.read.room, Cancelling) == WithStatus(s.read.room, Cancelling);
    assert WithStatus(s'.write.room, Cancelling) == WithStatus(s.write.room, Cancelling);
  }

  // One waiter changes its status; nothing else moves.
  ghost predicate Restatus(s: State, s': State, t: ThreadId, side: Side, status: Status) {
    && Inside(s, side, t)
    && (side == Read ==> s'.write == s.write) && (side == Write ==> s'.read == s.read)
    && ProxyOf(s', side).waiting == ProxyOf(s, side).waiting
    && ProxyOf(s', side).room.inside ==
         ProxyOf(s, side).room.inside[t := ProxyOf(s, side).room.inside[t].(status := status)]
  }

  lemma RestatusCount(s: State, s': State, t: ThreadId, side: Side, status: Status, counted: Status)
    requires Restatus(s, s', t, side, status)
    ensures Crowd(s') == Crowd(s)
    ensures Count(s', counted) == Count(s, counted) + (if status == counted then 1 else 0)
                                  - (if StatusOf(s, side, t) == counted then 1 else 0)
  {
    var before := WithStatus(ProxyOf(s, side).room, counted);
    var after := WithStatus(ProxyOf(s', side).room, counted);
    if status == counted {
      assert after == before + {t};
    } else {
      assert after == before - {t};
    }
  }

  lemma LeaveCount(s: State, t: ThreadId, side: Side)
    requires Inside(s, side, t) && StatusOf(s, side, t).Signalled?
    ensures Crowd(Leave(s, t, side)) == Crowd(s) - 1
    ensures Count(Leave(s, t, side), Cancelling) == Count(s, Cancelling)
  {
    assert WithStatus(ProxyOf(Leave(s, t, side), side).room, Cancelling)
        == WithStatus(ProxyOf(s, side).room, Cancelling);
  }

  lemma AbandonCount(s: State, t: ThreadId, side: Side)
    requires LedgerOK(s) && Inside(s, side, t) && StatusOf(s, side, t).Signalled?
    ensures Crowd(Abandon(s, t, side)) == Crowd(s) - 1 && Abandon(s, t, side).clearing == s.clearing
    ensures Count(Abandon(s, t, side), Cancelling) == Count(s, Cancelling)
  {
    LeaveLedger(s, t, side);
    LeaveCount(s, t, side);
    AbortsQuiet(Leave(s, t, side), Ticket(s, side, t));
    QuietCount(Leave(s, t, side), Abandon(s, t, side));
  }

  lemma GrantWaitingCount(s: State, t: ThreadId, side: Side)
    requires LedgerOK(s) && Inside(s, side, t) && StatusOf(s, side, t).Signalled?
    ensures Crowd(GrantWaiting(s, t, side)) == Crowd(s) - 1
    ensures Count(GrantWaiting(s, t, side), Cancelling) == Count(s, Cancelling)
    ensures |GrantWaiting(s, t, side).clearing| <= |s.clearing| + (if side == Write then 1 else 0)
  {
    LeaveCount(s, t, side);
    if side == Read {
      GrantWaitingQuiet(s, t);
      QuietCount(SeatedReader(s, t), GrantWaiting(s, t, side));
      assert Count(SeatedReader(s, t), Cancelling) == Count(Leave(s, t, side), Cancelling);
    } else {
      assert Count(GrantWaiting(s, t, side), Cancelling) == Count(Leave(s, t, side), Cancelling);
    }
  }

  ghost predicate SamePopulation(s: State, s': State) {
    Crowd(s') == Crowd(s) && Count(s', Cancelling) == Count(s, Cancelling) && s'.clearing == s.clearing
  }

  lemma ReleaseReadCount(s: State, t: ThreadId)
    requires LedgerOK(s) && ReleaseReadCore(s, t).Some?
    ensures SamePopulation(s, ReleaseReadCore(s, t).value)
  {
    ReaderGoneLedger(s, t);
    AftersQuiet(ReaderGone(s, t));
    QuietCount(ReaderGone(s, t), AfterLastReader(ReaderGone(s, t)));
  }

  lemma ReleaseWriteCount(s: State, t: ThreadId)
    requires LedgerOK(s) && ReleaseWriteCore(s, t).Some?
    ensures SamePopulation(s, ReleaseWriteCore(s, t).value)
  {
    AbortsQuiet(WriterGone(s), 0);
    QuietCount(WriterGone(s), OnWriterAbort(WriterGone(s)));
  }

  lemma ReleaseCount(s: State, t: ThreadId, side: Side)
    requires Inv(s) && Free(s, t)
    ensures SamePopulation(s, ReleaseSide(s, t, side).0)
  {
    var s1 := if side == Write && s.marker == Some(t) then s.(marker := None) else s;
    UnmarkInv(s);
    assert SamePopulation(s, s1);
    if ReleaseReadCore(s1, t).Some? {
      ReleaseReadCount(s1, t);
    }
    if ReleaseWriteCore(s1, t).Some? {
      ReleaseWriteCount(s1, t);
    }
  }

  lemma DowngradeCount(s: State, t: ThreadId)
    requires Inv(s) && Free(s, t) && DowngradeCore(s, t).Some?
    ensures SamePopulation(s, DowngradeCore(s, t).value)
  {
    DowngradedOK(s, t);
    AftersQuiet(Downgraded(s, t));
    QuietCount(Downgraded(s, t), AfterDowngrade(Downgraded(s, t)));
  }

  // ---- Cancelled callers ----

  // The callers on one side whose future was cancelled and whose task has not run yet.
  ghost function Doomed(s: State, side: Side): set<ThreadId> {
    WithStatus(ProxyOf(s, side).room, Cancelling)
  }

  // Only a cancellation dooms a caller, and only the abort of that caller ends it.
  ghost function DoomedAfter(s: State, e: Event, side: Side): set<ThreadId>
    requires Enabled(s, e)
  {
    match e
    case Cancel(t, x) => if x == side then Doomed(s, side) + {t} else Doomed(s, side)
    case Abort(t, x) => if x == side then Doomed(s, side) - {t} else Doomed(s, side)
    case _ => Doomed(s, side)
  }

  lemma QuietDoomed(s: State, s': State, x: Side)
    requires Quiet(s, s')
    ensures Doomed(s', x) == Doomed(s, x)
  {}

  lemma AcquireDoomed(s: State, t: ThreadId, side: Side, waiting: bool, ticket: Option<nat>, x: Side)
    requires LedgerOK(s)
    ensures Doomed(AcquireCore(s, t, side, waiting, ticket), x) == Doomed(s, x)
  {
    if side == Read {
      AcquireReadQuiet(s, t, waiting, ticket);
      QuietDoomed(RecordReaderAcquire(s, t), AcquireReadCore(s, t, waiting, ticket), x);
    }
  }

  // Sitting down, sleeping, waking and leaving: nobody else is concerned.
  lemma SeatDoomed(s: State, t: ThreadId, side: Side, x: Side)
    requires Inside(s, side, t)
    ensures Doomed(Leave(s, t, side), x) == if x == side then Doomed(s, x) - {t} else Doomed(s, x)
    ensures Doomed(Rouse(s, t, side), x) == if x == side then Doomed(s, x) - {t} else Doomed(s, x)
    ensures Doomed(Park(s, t, side), x) == if x == side then Doomed(s, x) - {t} else Doomed(s, x)
  {}

  lemma GrantWaitingDoomed(s: State, t: ThreadId, side: Side, x: Side)
    requires LedgerOK(s) && Inside(s, side, t) && StatusOf(s, side, t).Signalled?
    ensures Doomed(GrantWaiting(s, t, side), x) == Doomed(s, x)
  {
    var core := AcquireCore(s, t, side, true, Some(Ticket(s, side, t)));
    AcquireDoomed(s, t, side, true, Some(Ticket(s, side, t)), x);
    AcquireDoomed(s, t, side, true, Some(Ticket(s, side, t)), side);
    assert t !in Doomed(s, side);
    hide AcquireCore, LedgerOK;
    LeftDoomed(core, t, side, x);
    assert Doomed(GrantWaiting(s, t, side), x) == Doomed(Leave(core, t, side), x);
  }

  lemma LeftDoomed(s: State, t: ThreadId, side: Side, x: Side)
    ensures Doomed(Leave(s, t, side), x) == if x == side then Doomed(s, x) - {t} else Doomed(s, x)
  {}

  lemma LoopTurnDoomed(s: State, t: ThreadId, side: Side, x: Side)
    requires LedgerOK(s) && Inside(s, side, t) && StatusOf(s, side, t).Signalled?
    ensures Doomed(LoopTurn(s, t, side), x) == Doomed(s, x)
  {
    hide LedgerOK, GrantWaiting, CanAcquire;
    SeatDoomed(s, t, side, x);
    GrantWaitingDoomed(s, t, side, x);
  }

  lemma AbandonDoomed(s: State, t: ThreadId, side: Side, x: Side)
    requires LedgerOK(s) && Inside(s, side, t) && StatusOf(s, side, t).Signalled?
    ensures Doomed(Abandon(s, t, side), x) == Doomed(s, x)
  {
    LeaveLedger(s, t, side);
    SeatDoomed(s, t, side, x);
    AbortsQuiet(Leave(s, t, side), Ticket(s, side, t));
    QuietDoomed(Leave(s, t, side), Abandon(s, t, side), x);
  }

  lemma ArriveDoomed(s: State, t: ThreadId, side: Side, blocking: bool, x: Side)
    requires Inv(s) && Free(s, t)
    ensures Doomed(ArriveStep(s, t, side, blocking).0, x) == Doomed(s, x)
  {
    hide LedgerOK, PhaseOK, ReadersBlocked, WritersAwake, LoopTurn, AcquireCore, CanRead, CanWrite;
    if side == Write && UpgradeRefused(s, t) {
    } else if CanAcquire(s, t, side, false, None) {
      AcquireDoomed(s, t, side, false, None, x);
    } else if blocking {
      EnterInv(s, t, side);
      LoopTurnDoomed(Enter(s, t, side), t, side, x);
    }
  }

  lemma ExpireDoomed(s: State, t: ThreadId, side: Side, x: Side)
    requires Inv(s) && Enabled(s, Expire(t, side))
    ensures Doomed(ExpireStep(s, t, side).0, x) == Doomed(s, x)
  {
    RousedDoomed(s, t, side, x);
    hide Inv, GrantWaiting, Abandon, CanAcquire, Doomed, Rouse;
    var awake := Rouse(s, t, side);
    if CanAcquire(awake, t, side, true, Some(Ticket(awake, side, t))) {
      GrantWaitingDoomed(awake, t, side, x);
    } else {
      AbandonDoomed(awake, t, side, x);
    }
  }

  lemma RousedDoomed(s: State, t: ThreadId, side: Side, x: Side)
    requires Inv(s) && Inside(s, side, t)
    ensures var awake := Rouse(s, t, side);
            && LedgerOK(awake) && Inside(awake, side, t) && StatusOf(awake, side, t).Signalled?
            && Doomed(awake, x) == if x == side then Doomed(s, x) - {t} else Doomed(s, x)
    ensures !StatusOf(s, side, t).Cancelling? ==> Doomed(Rouse(s, t, side), x) == Doomed(s, x)
  {
    RouseLedger(s, t, side);
    SeatDoomed(s, t, side, x);
  }

  lemma AbortDoomed(s: State, t: ThreadId, side: Side, x: Side)
    requires Inv(s) && Enabled(s, Abort(t, side))
    ensures Doomed(Abandon(Rouse(s, t, side), t, side), x) ==
            if x == side then Doomed(s, x) - {t} else Doomed(s, x)
  {
    RousedDoomed(s, t, side, x);
    hide Inv, Abandon, Doomed, Rouse;
    AbandonDoomed(Rouse(s, t, side), t, side, x);
  }

  lemma ReleaseDoomed(s: State, t: ThreadId, side: Side, x: Side)
    requires Inv(s) && Free(s, t)
    ensures Doomed(ReleaseSide(s, t, side).0, x) == Doomed(s, x)
  {
    var s1 := if side == Write && s.marker == Some(t) then s.(marker := None) else s;
    UnmarkInv(s);
    assert Doomed(s1, x) == Doomed(s, x);
    hide LedgerOK, PhaseOK, ReadersBlocked, WritersAwake, ReleaseReadCore, ReleaseWriteCore, Doomed;
    if ReleaseReadCore(s1, t).Some? {
      ReleaseReadDoomed(s1, t, x);
    }
    if ReleaseWriteCore(s1, t).Some? {
      ReleaseWriteDoomed(s1, t, x);
    }
  }

  lemma ReleaseReadDoomed(s: State, t: ThreadId, x: Side)
    requires LedgerOK(s) && ReleaseReadCore(s, t).Some?
    ensures Doomed(ReleaseReadCore(s, t).value, x) == Doomed(s, x)
  {
    ReaderGoneLedger(s, t);
    AftersQuiet(ReaderGone(s, t));
    QuietDoomed(ReaderGone(s, t), AfterLastReader(ReaderGone(s, t)), x);
  }

  lemma ReleaseWriteDoomed(s: State, t: ThreadId, x: Side)
    requires LedgerOK(s) && ReleaseWriteCore(s, t).Some?
    ensures Doomed(ReleaseWriteCore(s, t).value, x) == Doomed(s, x)
  {
    AbortsQuiet(WriterGone(s), 0);
    QuietDoomed(WriterGone(s), OnWriterAbort(WriterGone(s)), x);
  }

  lemma StepDoomed(s: State, e: Event, x: Side)
    requires Inv(s) && Enabled(s, e)
    ensures Doomed(Next(s, e), x) == DoomedAfter(s, e, x)
  {
    hide PhaseOK, ReadersBlocked, WritersAwake, ArriveStep, LoopTurn, ExpireStep, ReleaseSide, Abandon;
    hide DowngradeCore, CancelStep, Doomed;
    match e
    case Arrive(t, side, blocking) => ArriveDoomed(s, t, side, blocking, x);
    case Resume(t, side) => LoopTurnDoomed(s, t, side, x);
    case Expire(t, side) => ExpireDoomed(s, t, side, x);
    case Cancel(t, side) => CancelDoomed(s, t, side, x);
    case Abort(t, side) => AbortDoomed(s, t, side, x);
    case ResetMarker(t) => SameRoomsDoomed(s, Next(s, e), x);
    case Release(t, side) => ReleaseDoomed(s, t, side, x);
    case Downgrade(t) => DowngradeDoomed(s, t, x);
  }

  lemma SameRoomsDoomed(s: State, s': State, x: Side)
    requires s'.read == s.read && s'.write == s.write
    ensures Doomed(s', x) == Doomed(s, x)
  {}

  lemma CancelDoomed(s: State, t: ThreadId, side: Side, x: Side)
    requires Inside(s, side, t)
    ensures Doomed(CancelStep(s, t, side), x) == if x == side then Doomed(s, x) + {t} else Doomed(s, x)
  {}

  lemma DowngradeDoomed(s: State, t: ThreadId, x: Side)
    requires Inv(s) && Enabled(s, Downgrade(t))
    ensures Doomed(Next(s, Downgrade(t)), x) == Doomed(s, x)
  {
    hide PhaseOK, ReadersBlocked, WritersAwake, AfterDowngrade;
    if DowngradeCore(s, t).Some? {
      DowngradedOK(s, t);
      AftersQuiet(Downgraded(s, t));
      QuietDoomed(Downgraded(s, t), AfterDowngrade(Downgraded(s, t)), x);
    }
  }
}
