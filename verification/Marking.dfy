// The downgrade marker of the writer proxy across one step.
module Marking {
  import opened WaitQueues
  import opened LockModel
  import opened Ledger
  import opened Invariant
  import opened Preservation

  ghost function MarksAfter(s: State, e: Event): (Option<ThreadId>, set<ThreadId>)
    requires Enabled(s, e)
  {
    match Exec(s, e).1
    case Granted =>
      if e.side == Read then (s.marker, s.clearing)
      else if s.cfg.runtime.Tasks? then (None, s.clearing)
      else (s.marker, s.clearing + {e.t})
    case Done =>
      (match e
       case Downgrade(t) => (Some(t), s.clearing)
       case ResetMarker(t) => (None, s.clearing - {t})
       case Release(t, side) => (if side == Write && s.marker == Some(t) then None else s.marker, s.clearing)
       case _ => (s.marker, s.clearing))
    case Raised =>
      if e.Release? && e.side == Write && s.marker == Some(e.t) then (None, s.clearing) else (s.marker, s.clearing)
    case _ => (s.marker, s.clearing)
  }

  ghost function Marks(s: State): (Option<ThreadId>, set<ThreadId>) {
    (s.marker, s.clearing)
  }

  lemma AcquireMarks(s: State, t: ThreadId, side: Side, waiting: bool, ticket: Option<nat>)
    requires LedgerOK(s)
    ensures Marks(AcquireCore(s, t, side, waiting, ticket)) == Marks(s)
  {
    AcquireReadQuiet(s, t, waiting, ticket);
  }

  lemma LoopTurnMarks(s: State, t: ThreadId, side: Side)
    requires LedgerOK(s) && Inside(s, side, t)
    ensures Marks(LoopTurn(s, t, side)) ==
            if LoopOutcome(s, t, side) == Granted then Marks(AfterGrant(s, t, side)) else Marks(s)
  {
    AcquireMarks(s, t, side, true, Some(Ticket(s, side, t)));
  }

  lemma AbandonMarks(s: State, t: ThreadId, side: Side)
    requires LedgerOK(s) && Inside(s, side, t) && StatusOf(s, side, t).Signalled?
    ensures Marks(Abandon(s, t, side)) == Marks(s)
  {
    LeaveLedger(s, t, side);
    AbortsQuiet(Leave(s, t, side), Ticket(s, side, t));
  }

  lemma ArriveMarks(s: State, e: Event)
    requires Inv(s) && Enabled(s, e) && e.Arrive?
    ensures Marks(Next(s, e)) == MarksAfter(s, e)
  {
    hide PhaseOK, ReadersBlocked, WritersAwake, LoopTurn, AcquireCore;
    if e.side == Write && UpgradeRefused(s, e.t) {
    } else if CanAcquire(s, e.t, e.side, false, None) {
      AcquireMarks(s, e.t, e.side, false, None);
    } else if e.blocking {
      EnterInv(s, e.t, e.side);
      LoopTurnMarks(Enter(s, e.t, e.side), e.t, e.side);
    }
  }

  lemma LeavingMarks(s: State, e: Event)
    requires Inv(s) && Enabled(s, e) && (e.Expire? || e.Abort?)
    ensures Marks(Next(s, e)) == MarksAfter(s, e)
  {
    hide LedgerOK, PhaseOK, ReadersBlocked, WritersAwake, Abandon, AcquireCore, CanRead, CanWrite;
    RouseInv(s, e.t, e.side);
    var awake := Rouse(s, e.t, e.side);
    if Exec(s, e).1 == Granted {
      AcquireMarks(awake, e.t, e.side, true, Some(Ticket(awake, e.side, e.t)));
    } else {
      AbandonMarks(awake, e.t, e.side);
    }
  }

  lemma ReadReleaseMarks(s: State, t: ThreadId)
    requires Inv(s)
    ensures ReleaseReadCore(s, t).Some? ==> Marks(ReleaseReadCore(s, t).value) == Marks(s)
  {
    if ReleaseReadCore(s, t).Some? {
      ReaderGoneLedger(s, t);
      AftersQuiet(ReaderGone(s, t));
    }
  }

  lemma WriteReleaseMarks(s: State, t: ThreadId)
    requires Inv(s)
    ensures ReleaseWriteCore(s, t).Some? ==> Marks(ReleaseWriteCore(s, t).value) == Marks(s)
  {
    AbortsQuiet(WriterGone(s), 0);
  }

  lemma ReleaseMarks(s: State, e: Event)
    requires Inv(s) && Enabled(s, e) && e.Release?
    ensures Marks(Next(s, e)) == MarksAfter(s, e)
  {
    hide PhaseOK, ReadersBlocked, WritersAwake, LedgerOK, ReleaseReadCore, ReleaseWriteCore;
    var s1 := if e.side == Write && s.marker == Some(e.t) then s.(marker := None) else s;
    UnmarkInv(s);
    ReadReleaseMarks(s1, e.t);
    WriteReleaseMarks(s1, e.t);
  }

  lemma DowngradeMarks(s: State, t: ThreadId)
    requires Inv(s) && Enabled(s, Downgrade(t))
    ensures Marks(Next(s, Downgrade(t))) == MarksAfter(s, Downgrade(t))
  {
    if DowngradeCore(s, t).Some? {
      DowngradedOK(s, t);
      AftersQuiet(Downgraded(s, t));
    }
  }

  lemma StepMarks(s: State, e: Event)
    requires Inv(s) && Enabled(s, e)
    ensures Marks(Next(s, e)) == MarksAfter(s, e)
  {
    match e
    case Arrive(_, _, _) => ArriveMarks(s, e);
    case Resume(t, side) => LoopTurnMarks(s, t, side);
    case Expire(_, _) => LeavingMarks(s, e);
    case Cancel(_, _) =>
    case Abort(_, _) => LeavingMarks(s, e);
    case ResetMarker(_) =>
    case Release(_, _) => ReleaseMarks(s, e);
    case Downgrade(t) => DowngradeMarks(s, t);
  }
}
