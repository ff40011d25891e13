// Who is inside the wait loops, and with which ticket, across one step.
module Seating {
  import opened WaitQueues
  import opened LockModel
  import opened Ledger
  import opened Invariant
  import opened Preservation

  ghost function Seats(s: State, side: Side): map<ThreadId, nat> {
    var r := ProxyOf(s, side).room;
    map t | t in r.inside :: r.inside[t].ticket
  }

  function Tickets(s: State, side: Side): nat {
    ProxyOf(s, side).tickets
  }

  // Only a blocking request takes a seat, with a fresh ticket; only a granted or abandoned
  // waiter loses its seat; nobody else's seat is touched.
  ghost function SeatsAfter(s: State, e: Event, side: Side): map<ThreadId, nat>
    requires Enabled(s, e)
  {
    match Exec(s, e).1
    case Waiting =>
      if e.Arrive? && side == e.side then Seats(s, side)[e.t := Tickets(s, side) + 1] else Seats(s, side)
    case Granted | Abandoned =>
      if !e.Arrive? && side == e.side then Seats(s, side) - {e.t} else Seats(s, side)
    case _ => Seats(s, side)
  }

  ghost function TicketsAfter(s: State, e: Event, side: Side): nat
    requires Enabled(s, e)
  {
    if e.Arrive? && e.side == side && Exec(s, e).1 == Waiting then Tickets(s, side) + 1 else Tickets(s, side)
  }

  lemma QuietSeats(s: State, s': State, side: Side)
    requires Quiet(s, s')
    ensures Seats(s', side) == Seats(s, side) && Tickets(s', side) == Tickets(s, side)
  {}

  lemma LeaveSeats(s: State, t: ThreadId, side: Side, x: Side)
    requires Inside(s, side, t)
    ensures Seats(Leave(s, t, side), x) == if x == side then Seats(s, x) - {t} else Seats(s, x)
  {}

  lemma AcquireSeats(s: State, t: ThreadId, side: Side, waiting: bool, ticket: Option<nat>, x: Side)
    requires LedgerOK(s)
    ensures Seats(AcquireCore(s, t, side, waiting, ticket), x) == Seats(s, x)
    ensures Tickets(AcquireCore(s, t, side, waiting, ticket), x) == Tickets(s, x)
  {
    if side == Read {
      AcquireReadQuiet(s, t, waiting, ticket);
      QuietSeats(RecordReaderAcquire(s, t), AcquireReadCore(s, t, waiting, ticket), x);
      assert Seats(RecordReaderAcquire(s, t), x) == Seats(s, x);
    }
  }

  lemma GrantWaitingSeats(s: State, t: ThreadId, side: Side, x: Side)
    requires LedgerOK(s) && Inside(s, side, t)
    ensures Seats(GrantWaiting(s, t, side), x) == if x == side then Seats(s, x) - {t} else Seats(s, x)
    ensures Tickets(GrantWaiting(s, t, side), x) == Tickets(s, x)
  {
    var core := AcquireCore(s, t, side, true, Some(Ticket(s, side, t)));
    AcquireSeats(s, t, side, true, Some(Ticket(s, side, t)), x);
    AcquireSeats(s, t, side, true, Some(Ticket(s, side, t)), side);
    assert t in Seats(core, side);
    LeaveSeats(core, t, side, x);
    assert Seats(GrantWaiting(s, t, side), x) == Seats(Leave(core, t, side), x);
  }

  lemma AbandonSeats(s: State, t: ThreadId, side: Side, x: Side)
    requires LedgerOK(s) && Inside(s, side, t) && StatusOf(s, side, t).Signalled?
    ensures Seats(Abandon(s, t, side), x) == if x == side then Seats(s, x) - {t} else Seats(s, x)
    ensures Tickets(Abandon(s, t, side), x) == Tickets(s, x)
  {
    LeaveLedger(s, t, side);
    LeaveSeats(s, t, side, x);
    AbortsQuiet(Leave(s, t, side), Ticket(s, side, t));
    QuietSeats(Leave(s, t, side), Abandon(s, t, side), x);
  }

  lemma LoopTurnSeats(s: State, t: ThreadId, side: Side, x: Side)
    requires LedgerOK(s) && Inside(s, side, t)
    ensures Seats(LoopTurn(s, t, side), x) ==
            if LoopOutcome(s, t, side) == Granted && x == side then Seats(s, x) - {t} else Seats(s, x)
    ensures Tickets(LoopTurn(s, t, side), x) == Tickets(s, x)
  {
    hide LedgerOK, CanAcquire, GrantWaiting;
    if LoopOutcome(s, t, side) == Granted {
      GrantWaitingSeats(s, t, side, x);
    } else {
      assert Seats(Park(s, t, side), x) == Seats(s, x);
    }
  }

  lemma ArriveSeats(s: State, t: ThreadId, side: Side, blocking: bool, x: Side)
    requires Inv(s) && Free(s, t)
    ensures Seats(Next(s, Arrive(t, side, blocking)), x) == SeatsAfter(s, Arrive(t, side, blocking), x)
    ensures Tickets(Next(s, Arrive(t, side, blocking)), x) == TicketsAfter(s, Arrive(t, side, blocking), x)
  {
    hide LedgerOK, PhaseOK, ReadersBlocked, WritersAwake, LoopTurn, AcquireCore, CanRead, CanWrite;
    if side == Write && UpgradeRefused(s, t) {
    } else if CanAcquire(s, t, side, false, None) {
      AcquireSeats(s, t, side, false, None, x);
      var core := AcquireCore(s, t, side, false, None);
      assert Seats(AfterGrant(core, t, side), x) == Seats(core, x);
    } else if blocking {
      EnterInv(s, t, side);
      EnterStillBlocked(s, t, side);
      LoopTurnSeats(Enter(s, t, side), t, side, x);
      assert t !in Seats(s, side);
      EnterSeats(s, t, side, x);
    }
  }

  lemma EnterSeats(s: State, t: ThreadId, side: Side, x: Side)
    ensures Seats(Enter(s, t, side), x) == if x == side then Seats(s, x)[t := Tickets(s, x) + 1] else Seats(s, x)
    ensures Tickets(Enter(s, t, side), x) == if x == side then Tickets(s, x) + 1 else Tickets(s, x)
  {}

  lemma RouseSeats(s: State, t: ThreadId, side: Side, x: Side)
    requires Inside(s, side, t)
    ensures Seats(Rouse(s, t, side), x) == Seats(s, x) && Tickets(Rouse(s, t, side), x) == Tickets(s, x)
  {}

  lemma LeavingSeats(s: State, e: Event, x: Side)
    requires Inv(s) && Enabled(s, e) && (e.Expire? || e.Abort?)
    ensures Seats(Next(s, e), x) == SeatsAfter(s, e, x) && Tickets(Next(s, e), x) == Tickets(s, x)
  {
    hide LedgerOK, PhaseOK, ReadersBlocked, WritersAwake, GrantWaiting, Abandon, CanRead, CanWrite, Seats;
    RouseInv(s, e.t, e.side);
    RouseSeats(s, e.t, e.side, x);
    var awake := Rouse(s, e.t, e.side);
    if Exec(s, e).1 == Granted {
      GrantWaitingSeats(awake, e.t, e.side, x);
    } else {
      AbandonSeats(awake, e.t, e.side, x);
    }
  }

  lemma ReleaseReadSeats(s: State, t: ThreadId, x: Side)
    requires Inv(s) && ReleaseReadCore(s, t).Some?
    ensures Seats(ReleaseReadCore(s, t).value, x) == Seats(s, x)
    ensures Tickets(ReleaseReadCore(s, t).value, x) == Tickets(s, x)
  {
    ReaderGoneLedger(s, t);
    AftersQuiet(ReaderGone(s, t));
    QuietSeats(ReaderGone(s, t), AfterLastReader(ReaderGone(s, t)), x);
    assert Seats(ReaderGone(s, t), x) == Seats(s, x);
  }

  lemma ReleaseWriteSeats(s: State, t: ThreadId, x: Side)
    requires Inv(s) && ReleaseWriteCore(s, t).Some?
    ensures Seats(ReleaseWriteCore(s, t).value, x) == Seats(s, x)
    ensures Tickets(ReleaseWriteCore(s, t).value, x) == Tickets(s, x)
  {
    AbortsQuiet(WriterGone(s), 0);
    QuietSeats(WriterGone(s), OnWriterAbort(WriterGone(s)), x);
    assert Seats(WriterGone(s), x) == Seats(s, x);
  }

  lemma ReleaseSeats(s: State, t: ThreadId, side: Side, x: Side)
    requires Inv(s) && Free(s, t)
    ensures Seats(ReleaseSide(s, t, side).0, x) == Seats(s, x)
    ensures Tickets(ReleaseSide(s, t, side).0, x) == Tickets(s, x)
  {
    var s1 := if side == Write && s.marker == Some(t) then s.(marker := None) else s;
    UnmarkInv(s);
    assert Seats(s1, x) == Seats(s, x);
    hide LedgerOK, PhaseOK, ReadersBlocked, WritersAwake, ReleaseReadCore, ReleaseWriteCore, Seats;
    if ReleaseReadCore(s1, t).Some? {
      ReleaseReadSeats(s1, t, x);
    }
    if ReleaseWriteCore(s1, t).Some? {
      ReleaseWriteSeats(s1, t, x);
    }
  }

  lemma DowngradeSeats(s: State, t: ThreadId, x: Side)
    requires Inv(s) && Free(s, t) && DowngradeCore(s, t).Some?
    ensures Seats(DowngradeCore(s, t).value, x) == Seats(s, x)
    ensures Tickets(DowngradeCore(s, t).value, x) == Tickets(s, x)
  {
    DowngradedOK(s, t);
    AftersQuiet(Downgraded(s, t));
    QuietSeats(Downgraded(s, t), AfterDowngrade(Downgraded(s, t)), x);
    assert Seats(Downgraded(s, t), x) == Seats(s, x);
  }

  lemma StepSeats(s: State, e: Event, x: Side)
    requires Inv(s) && Enabled(s, e)
    ensures Seats(Next(s, e), x) == SeatsAfter(s, e, x)
    ensures Tickets(Next(s, e), x) == TicketsAfter(s, e, x)
  {
    hide LedgerOK, PhaseOK, ReadersBlocked, WritersAwake;
    hide ArriveStep, LoopTurn, ExpireStep, ReleaseSide, Abandon, DowngradeCore;
    match e
    case Arrive(t, side, blocking) => ArriveSeats(s, t, side, blocking, x);
    case Resume(t, side) => LoopTurnSeats(s, t, side, x);
    case Expire(_, _) => LeavingSeats(s, e, x);
    case Cancel(t, side) => assert Seats(Next(s, e), x) == Seats(s, x);
    case Abort(_, _) => LeavingSeats(s, e, x);
    case ResetMarker(t) => assert Seats(Next(s, e), x) == Seats(s, x);
    case Release(t, side) => ReleaseSeats(s, t, side, x);
    case Downgrade(t) =>
      if DowngradeCore(s, t).Some? {
        DowngradeSeats(s, t, x);
        assert Seats(Next(s, e), x) == Seats(DowngradeCore(s, t).value, x);
      }
  }

  // Nobody loses its seat by somebody else's step.
  lemma OthersKeepSeats(s: State, e: Event, p: ThreadId, x: Side)
    requires Inv(s) && Enabled(s, e) && Inside(s, x, p) && e.t != p
    ensures Inside(Next(s, e), x, p) && Ticket(Next(s, e), x, p) == Ticket(s, x, p)
  {
    hide Inv, Exec;
    StepSeats(s, e, x);
    assert p in Seats(s, x) && Seats(s, x)[p] == Ticket(s, x, p);
    assert p in SeatsAfter(s, e, x) && SeatsAfter(s, e, x)[p] == Seats(s, x)[p];
    assert p in Seats(Next(s, e), x);
    assert Seats(Next(s, e), x)[p] == Ticket(Next(s, e), x, p);
  }

  // A ticket that has been given up never comes back.
  lemma SeatKept(s: State, e: Event, p: ThreadId, k: nat, x: Side)
    requires Inv(s) && Enabled(s, e)
    requires k <= Tickets(s, x) && Inside(Next(s, e), x, p) && Ticket(Next(s, e), x, p) == k
    ensures Inside(s, x, p) && Ticket(s, x, p) == k
  {
    hide LedgerOK, PhaseOK, ReadersBlocked, WritersAwake;
    hide ArriveStep, LoopTurn, LoopOutcome, ExpireStep, ReleaseSide, Abandon, DowngradeCore;
    StepSeats(s, e, x);
    assert Seats(Next(s, e), x)[p] == k;
  }
}
