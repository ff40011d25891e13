// Every variant, under every schedule, behaves like one abstract read-write lock; parking,
// waking, re-parking and abandoning are invisible there.
module Refinement {
  import opened WaitQueues
  import opened LockModel
  import opened Ledger
  import opened Invariant
  import opened Preservation

  // The lock a user of the library thinks of: one optional writer with its depth, and the
  // read depth of every reader.
  datatype Abstract = Abstract(reentrant: bool, writer: Option<ThreadId>, depth: int, readers: map<ThreadId, int>)

  datatype Action =
    | Stutter
    | TakeRead(t: ThreadId)
    | TakeWrite(t: ThreadId)
    | DropRead(t: ThreadId)
    | DropWrite(t: ThreadId)
    | Demote(t: ThreadId)

  predicate May(a: Abstract, act: Action) {
    match act
    case Stutter => true
    case TakeRead(t) => a.writer == None || (a.reentrant && a.writer == Some(t))
    case TakeWrite(t) => (a.writer == None && a.readers == map[]) || (a.reentrant && a.writer == Some(t))
    case DropRead(t) => t in a.readers
    case DropWrite(t) => a.writer.Some? && (a.reentrant ==> a.writer == Some(t))
    case Demote(t) => a.writer == Some(t) && a.depth == 1
  }

  function Depth(m: map<ThreadId, int>, t: ThreadId): int {
    if t in m then m[t] else 0
  }

  function Do(a: Abstract, act: Action): Abstract {
    match act
    case Stutter => a
    case TakeRead(t) => a.(readers := a.readers[t := Depth(a.readers, t) + 1])
    case TakeWrite(t) => a.(writer := Some(t), depth := a.depth + 1)
    case DropRead(t) =>
      if Depth(a.readers, t) == 1 then a.(readers := a.readers - {t})
      else a.(readers := a.readers[t := Depth(a.readers, t) - 1])
    case DropWrite(t) => if a.depth == 1 then a.(writer := None, depth := 0) else a.(depth := a.depth - 1)
    case Demote(t) => a.(writer := None, depth := 0, readers := a.readers[t := Depth(a.readers, t) + 1])
  }

  // A writer excludes all readers (plain) or all readers but itself (reentrant).
  ghost predicate Exclusive(a: Abstract) {
    && Positive(a.readers)
    && a.depth >= 0 && (a.depth == 0 <==> a.writer == None) && (!a.reentrant ==> a.depth <= 1)
    && (a.writer.Some? ==>
          forall t :: t in a.readers ==> a.reentrant && t == a.writer.value)
  }

  lemma ExclusiveKept(a: Abstract, act: Action)
    requires Exclusive(a) && May(a, act)
    ensures Exclusive(Do(a, act))
  {}

  // ---- The mapping ----

  function View(s: State): Abstract {
    Abstract(s.cfg.reentrant, Writer(s),
             if s.cfg.reentrant then s.writeCount else if s.writerActive then 1 else 0,
             s.readerOwners)
  }

  // Whether a release ends on the read side.
  predicate RoutesToRead(s: State, t: ThreadId, side: Side) {
    side == Read || (s.marker == Some(t) && ReadDepth(s, t) != 0)
  }

  function Take(side: Side, t: ThreadId): Action {
    if side == Read then TakeRead(t) else TakeWrite(t)
  }

  function ActionOf(s: State, e: Event): Action
    requires Enabled(s, e)
  {
    match Exec(s, e).1
    case Granted => Take(e.side, e.t)
    case Done =>
      (match e
       case Release(t, side) => if RoutesToRead(s, t, side) then DropRead(t) else DropWrite(t)
       case Downgrade(t) => Demote(t)
       case _ => Stutter)
    case _ => Stutter
  }

  lemma ViewExclusive(s: State)
    requires Inv(s)
    ensures Exclusive(View(s))
    ensures HasWriter(s) <==> View(s).writer.Some?
  {}

  lemma GrantView(s: State, t: ThreadId, side: Side, waiting: bool, ticket: Option<nat>)
    requires Inv(s) && CanAcquire(s, t, side, waiting, ticket)
    ensures May(View(s), Take(side, t))
    ensures View(AfterGrant(AcquireCore(s, t, side, waiting, ticket), t, side)) == Do(View(s), Take(side, t))
  {
    hide PhaseOK, ReadersBlocked, WritersAwake, RoomOK;
    ReadersFacts(s);
    LedgerRooms(s);
    AcquireReadQuiet(s, t, waiting, ticket);
  }

  lemma GrantWaitingView(s: State, t: ThreadId, side: Side)
    requires Inv(s) && Inside(s, side, t) && CanAcquire(s, t, side, true, Some(Ticket(s, side, t)))
    ensures May(View(s), Take(side, t)) && View(GrantWaiting(s, t, side)) == Do(View(s), Take(side, t))
  {
    GrantView(s, t, side, true, Some(Ticket(s, side, t)));
  }

  lemma AbandonView(s: State, t: ThreadId, side: Side)
    requires Inv(s) && Inside(s, side, t) && StatusOf(s, side, t).Signalled?
    ensures View(Abandon(s, t, side)) == View(s)
  {
    LeaveLedger(s, t, side);
    AbortsQuiet(Leave(s, t, side), Ticket(s, side, t));
  }

  lemma ArriveView(s: State, t: ThreadId, side: Side, blocking: bool)
    requires Inv(s) && Free(s, t)
    ensures var e := Arrive(t, side, blocking);
            May(View(s), ActionOf(s, e)) && View(Next(s, e)) == Do(View(s), ActionOf(s, e))
  {
    if side == Write && UpgradeRefused(s, t) {
    } else if CanAcquire(s, t, side, false, None) {
      GrantView(s, t, side, false, None);
    } else if blocking {
      EnterInv(s, t, side);
      var entered := Enter(s, t, side);
      if CanAcquire(entered, t, side, true, Some(Ticket(entered, side, t))) {
        GrantWaitingView(entered, t, side);
      }
    }
  }

  lemma ExpireView(s: State, t: ThreadId, side: Side)
    requires Inv(s) && Enabled(s, Expire(t, side))
    ensures var e := Expire(t, side);
            May(View(s), ActionOf(s, e)) && View(Next(s, e)) == Do(View(s), ActionOf(s, e))
  {
    RouseInv(s, t, side);
    var awake := Rouse(s, t, side);
    if CanAcquire(awake, t, side, true, Some(Ticket(awake, side, t))) {
      GrantWaitingView(awake, t, side);
    } else {
      AbandonView(awake, t, side);
    }
  }

  lemma ReleaseReadView(s: State, t: ThreadId)
    requires Inv(s) && t in s.readerOwners
    ensures ReleaseReadCore(s, t).Some?
    ensures View(ReleaseReadCore(s, t).value) == Do(View(s), DropRead(t))
  {
    hide LedgerOK, PhaseOK, ReadersBlocked, WritersAwake, AfterLastReader, ReleaseReadCore;
    ReaderGoneLedger(s, t);
    LedgerRooms(ReaderGone(s, t));
    AftersQuiet(ReaderGone(s, t));
  }

  lemma ReleaseWriteView(s: State, t: ThreadId)
    requires Inv(s) && Free(s, t) && ReleaseWriteCore(s, t).Some?
    ensures May(View(s), DropWrite(t))
    ensures View(ReleaseWriteCore(s, t).value) == Do(View(s), DropWrite(t))
  {
    if !(s.cfg.reentrant && s.writeCount > 1) {
      WriterGoneLedger(s);
      AbortsQuiet(WriterGone(s), 0);
    }
  }

  lemma ReleaseView(s: State, t: ThreadId, side: Side)
    requires Inv(s) && Free(s, t)
    ensures var e := Release(t, side);
            May(View(s), ActionOf(s, e)) && View(Next(s, e)) == Do(View(s), ActionOf(s, e))
  {
    var s1 := if side == Write && s.marker == Some(t) then s.(marker := None) else s;
    UnmarkInv(s);
    ReadersFacts(s);
    assert View(s1) == View(s);
    if RoutesToRead(s, t, side) && t in s.readerOwners {
      ReleaseReadView(s1, t);
    } else if side == Write && ReleaseWriteCore(s1, t).Some? {
      ReleaseWriteView(s1, t);
    }
  }

  lemma DowngradeView(s: State, t: ThreadId)
    requires Inv(s) && Free(s, t)
    ensures var e := Downgrade(t);
            May(View(s), ActionOf(s, e)) && View(Next(s, e)) == Do(View(s), ActionOf(s, e))
  {
    hide LedgerOK, PhaseOK, ReadersBlocked, WritersAwake, AfterDowngrade;
    ViewExclusive(s);
    if DowngradeCore(s, t).Some? {
      DowngradedOK(s, t);
      LedgerRooms(Downgraded(s, t));
      AftersQuiet(Downgraded(s, t));
    }
  }

  lemma ResumeView(s: State, t: ThreadId, side: Side)
    requires Inv(s) && Enabled(s, Resume(t, side))
    ensures var e := Resume(t, side);
            May(View(s), ActionOf(s, e)) && View(Next(s, e)) == Do(View(s), ActionOf(s, e))
  {
    if CanAcquire(s, t, side, true, Some(Ticket(s, side, t))) {
      GrantWaitingView(s, t, side);
    }
  }

  lemma AbortView(s: State, t: ThreadId, side: Side)
    requires Inv(s) && Enabled(s, Abort(t, side))
    ensures ActionOf(s, Abort(t, side)) == Stutter && View(Next(s, Abort(t, side))) == View(s)
  {
    RouseInv(s, t, side);
    AbandonView(Rouse(s, t, side), t, side);
  }

  // Main result, one step: the abstract lock may do the mapped action, and does exactly it.
  lemma StepRefines(s: State, e: Event)
    requires Inv(s) && Enabled(s, e)
    ensures May(View(s), ActionOf(s, e))
    ensures View(Next(s, e)) == Do(View(s), ActionOf(s, e))
  {
    match e
    case Arrive(t, side, blocking) => ArriveView(s, t, side, blocking);
    case Resume(t, side) => ResumeView(s, t, side);
    case Expire(t, side) => ExpireView(s, t, side);
    case Cancel(t, side) =>
    case Abort(t, side) => AbortView(s, t, side);
    case ResetMarker(t) =>
    case Release(t, side) => ReleaseView(s, t, side);
    case Downgrade(t) => DowngradeView(s, t);
  }

  ghost predicate AbstractRun(views: seq<Abstract>, acts: seq<Action>) {
    && |views| == |acts| + 1
    && forall i :: 0 <= i < |acts| ==> May(views[i], acts[i]) && views[i + 1] == Do(views[i], acts[i])
  }

  // Main result, whole runs: the views of a run are a run of the abstract lock.
  lemma RunRefines(ss: seq<State>, es: seq<Event>)
    requires Run(ss, es) && Inv(ss[0])
    ensures AbstractRun(seq(|ss|, i requires 0 <= i < |ss| => View(ss[i])),
                        seq(|es|, i requires 0 <= i < |es| && Enabled(ss[i], es[i]) => ActionOf(ss[i], es[i])))
    ensures forall i :: 0 <= i < |ss| ==> Exclusive(View(ss[i]))
  {
    forall i | 0 <= i < |ss| ensures Inv(ss[i]) && Exclusive(View(ss[i])) {
      RunInv(ss, es, i);
      ViewExclusive(ss[i]);
    }
    forall i | 0 <= i < |es|
      ensures May(View(ss[i]), ActionOf(ss[i], es[i])) && View(ss[i + 1]) == Do(View(ss[i]), ActionOf(ss[i], es[i]))
    {
      StepRefines(ss[i], es[i]);
    }
  }

  // ---- The holds of one thread ----

  function WriteDepth(s: State, t: ThreadId): int {
    if Writer(s) == Some(t) then View(s).depth else 0
  }

  // What one abstract action does to the depths of the threads.
  lemma DepthsAfter(s: State, s': State, act: Action, t: ThreadId)
    requires Inv(s) && Inv(s') && s'.cfg == s.cfg
    requires act.DropWrite? ==> Writer(s) == Some(act.t)
    requires May(View(s), act) && View(s') == Do(View(s), act)
    ensures WriteDepth(s', t) == WriteDepth(s, t) +
            (if act == TakeWrite(t) then 1 else if act == DropWrite(t) || act == Demote(t) then -1 else 0)
    ensures ReadDepth(s', t) == ReadDepth(s, t) +
            (if act == TakeRead(t) || act == Demote(t) then 1 else if act == DropRead(t) then -1 else 0)
  {
    WriteDepthAfter(s, s', act, t);
  }

  lemma WriteDepthAfter(s: State, s': State, act: Action, t: ThreadId)
    requires Inv(s) && Inv(s') && s'.cfg == s.cfg
    requires act.DropWrite? ==> Writer(s) == Some(act.t)
    requires May(View(s), act) && View(s') == Do(View(s), act)
    ensures WriteDepth(s', t) == WriteDepth(s, t) +
            (if act == TakeWrite(t) then 1 else if act == DropWrite(t) || act == Demote(t) then -1 else 0)
  {
    hide Inv;
    ViewExclusive(s);
    ViewExclusive(s');
  }

  // ---- Exactly when calls fail ----

  // A request raises exactly on a read-to-write upgrade; otherwise a blocking request is
  // granted or waits, and a non-blocking one is granted or refused.
  lemma ArriveOutcome(s: State, t: ThreadId, side: Side, blocking: bool)
    requires Inv(s) && Free(s, t)
    ensures var out := Exec(s, Arrive(t, side, blocking)).1;
            && (out == Raised <==> side == Write && t in s.readerOwners && Writer(s) != Some(t))
            && (out != Raised ==> out == Granted || out == (if blocking then Waiting else Refused))
            && (out == Granted ==> CanAcquire(s, t, side, false, None))
  {
    ReadersFacts(s);
  }

  // A release succeeds exactly if it is routed to a read the caller has, or finds a writer;
  // only reentrant variants also ask for that writer to be the caller.
  lemma ReleaseOutcome(s: State, t: ThreadId, side: Side)
    requires Inv(s) && Free(s, t)
    ensures Exec(s, Release(t, side)).1 == Done <==>
            || (side == Read && t in s.readerOwners)
            || (side == Write && s.marker == Some(t) && t in s.readerOwners)
            || (side == Write && if s.cfg.reentrant then Writer(s) == Some(t) else HasWriter(s))
    ensures Exec(s, Release(t, side)).1 != Done ==> View(Next(s, Release(t, side))) == View(s)
  {
    ReadersFacts(s);
  }

  // Thread 0 has been granted write and is back from its request.
  function FirstWriter(cfg: Config): State {
    AcquireWriteCore(Init(cfg), 0)
  }

  lemma FirstWriterReachable(cfg: Config)
    ensures Reachable(FirstWriter(cfg))
  {
    var granted := Next(Init(cfg), Arrive(0, Write, true));
    InitReachable(cfg);
    ReachableStep(Init(cfg), Arrive(0, Write, true));
    if cfg.runtime.Threads? {
      ReachableStep(granted, ResetMarker(0));
      assert Next(granted, ResetMarker(0)) == FirstWriter(cfg);
    } else {
      assert granted == FirstWriter(cfg);
    }
  }

  // In a plain variant a thread that is not the writer ends the writer's hold.
  lemma ForeignReleaseSucceeds(cfg: Config)
    requires !cfg.reentrant
    ensures var s := FirstWriter(cfg); var e := Release(1, Write);
            && Reachable(s) && Writer(s) == Some(0) && Enabled(s, e)
            && Exec(s, e).1 == Done && !HasWriter(Next(s, e))
  {
    FirstWriterReachable(cfg);
  }

  // A downgrade succeeds exactly for the writer itself, at depth one.
  lemma DowngradeOutcome(s: State, t: ThreadId)
    requires Inv(s) && Free(s, t)
    ensures Exec(s, Downgrade(t)).1 == Done <==> Writer(s) == Some(t) && View(s).depth == 1
    ensures Exec(s, Downgrade(t)).1 != Done ==> Next(s, Downgrade(t)) == s
  {}
}
