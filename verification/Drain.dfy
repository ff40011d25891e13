// Once no new requests arrive, every run is finite, and it can only end with nobody holding
// the lock and nobody waiting.
module Drain {
  import opened WaitQueues
  import opened LockModel
  import opened Ledger
  import opened Invariant
  import opened Preservation
  import opened Population
  import opened Refinement
  import opened Seating
  import opened Wakeups

  // Steps of a closed run: waiters run, time out, are cancelled or abort; holders release
  // or downgrade.  Requests, and releases or downgrades that raise, are not among them.
  predicate Closing(s: State, e: Event) {
    && Enabled(s, e)
    && match e
       case Arrive(_, _, _) => false
       case Release(_, _) | Downgrade(_) => Exec(s, e).1 == Done
       case _ => true
  }

  // ---- The measure ----

  function Weight(a: Abstract, readers: int): int {
    2 * a.depth + readers
  }

  ghost function Work(s: State): int {
    5 * Crowd(s) - Count(s, Cancelling) + Weight(View(s), s.readersActive) + |s.clearing|
  }

  // Lexicographic (Work, awake callers), with at most n callers ever waiting.
  ghost function Measure(s: State, n: int): int {
    Work(s) * (n + 1) + Count(s, Signalled)
  }

  lemma WorkNatural(s: State)
    requires Inv(s)
    ensures Work(s) >= 0 && Crowd(s) >= 0
  {
    CountBound(s, Cancelling);
    ReadersFacts(s);
  }

  lemma MeasureNatural(s: State, n: nat)
    requires Inv(s)
    ensures Measure(s, n) >= 0
  {
    hide Inv, Work, Count, Crowd;
    WorkNatural(s);
    assert Work(s) * (n + 1) >= 0;
  }

  lemma Lexicographic(w': int, c': nat, w: int, c: nat, n: nat)
    requires 0 <= w' <= w && c' <= n && (w' == w ==> c' < c)
    ensures 0 <= w' * (n + 1) + c' < w * (n + 1) + c
  {
    if w' < w {
      assert w' * (n + 1) <= (w - 1) * (n + 1);
    }
  }

  lemma ActionWeight(s: State, s': State, act: Action)
    requires Inv(s) && Inv(s') && May(View(s), act) && View(s') == Do(View(s), act)
    ensures Weight(View(s'), s'.readersActive) == Weight(View(s), s.readersActive) +
            match act
            case Stutter => 0
            case TakeRead(_) => 1
            case TakeWrite(_) => 2
            case DropRead(_) => -1
            case DropWrite(_) => -2
            case Demote(_) => -1
  {
    ReadersSum(s);
    ReadersSum(s');
    ViewExclusive(s);
    hide Inv, May, Do;
    DoWeight(View(s), act);
  }

  lemma DoWeight(a: Abstract, act: Action)
    requires Exclusive(a) && May(a, act)
    ensures Weight(Do(a, act), Sum(Do(a, act).readers)) == Weight(a, Sum(a.readers)) +
            match act
            case Stutter => 0
            case TakeRead(_) => 1
            case TakeWrite(_) => 2
            case DropRead(_) => -1
            case DropWrite(_) => -2
            case Demote(_) => -1
  {
    hide Sum;
    match act
    case TakeRead(t) => SumUpdate(a.readers, t, Depth(a.readers, t) + 1);
    case Demote(t) => SumUpdate(a.readers, t, Depth(a.readers, t) + 1);
    case DropRead(t) =>
      SumUpdate(a.readers, t, Depth(a.readers, t) - 1);
      SumRemove(a.readers, t);
    case _ =>
  }

  lemma ReadersSum(s: State)
    requires Inv(s)
    ensures s.readersActive == Sum(View(s).readers)
  {}

  lemma StepWeight(s: State, e: Event)
    requires Inv(s) && Enabled(s, e)
    ensures Inv(Next(s, e))
    ensures Weight(View(Next(s, e)), Next(s, e).readersActive) - Weight(View(s), s.readersActive) ==
            match ActionOf(s, e)
            case Stutter => 0
            case TakeRead(_) => 1
            case TakeWrite(_) => 2
            case DropRead(_) => -1
            case DropWrite(_) => -2
            case Demote(_) => -1
  {
    StepInv(s, e);
    StepRefines(s, e);
    ActionWeight(s, Next(s, e), ActionOf(s, e));
  }

  lemma ResumeWork(s: State, t: ThreadId, side: Side)
    requires Inv(s) && Enabled(s, Resume(t, side))
    ensures var s' := Next(s, Resume(t, side));
            && Crowd(s') <= Crowd(s) && Work(s') <= Work(s)
            && (Work(s') == Work(s) ==> Count(s', Signalled) == Count(s, Signalled) - 1)
  {
    StepWeight(s, Resume(t, side));
    if CanAcquire(s, t, side, true, Some(Ticket(s, side, t))) {
      GrantWaitingCount(s, t, side);
    } else {
      RestatusCount(s, Park(s, t, side), t, side, Parked, Cancelling);
      RestatusCount(s, Park(s, t, side), t, side, Parked, Signalled);
    }
  }

  lemma ExpireWork(s: State, t: ThreadId, side: Side)
    requires Inv(s) && Enabled(s, Expire(t, side))
    ensures var s' := Next(s, Expire(t, side)); Crowd(s') <= Crowd(s) && Work(s') < Work(s)
  {
    hide LedgerOK, PhaseOK, ReadersBlocked, WritersAwake, GrantWaiting, Abandon, CanAcquire, View, Weight, Do, May;
    StepWeight(s, Expire(t, side));
    RouseInv(s, t, side);
    var awake := Rouse(s, t, side);
    RestatusCount(s, awake, t, side, Signalled, Cancelling);
    if CanAcquire(awake, t, side, true, Some(Ticket(awake, side, t))) {
      GrantWaitingCount(awake, t, side);
    } else {
      AbandonCount(awake, t, side);
    }
  }

  lemma AbortWork(s: State, t: ThreadId, side: Side)
    requires Inv(s) && Enabled(s, Abort(t, side))
    ensures var s' := Next(s, Abort(t, side)); Crowd(s') <= Crowd(s) && Work(s') < Work(s)
  {
    StepWeight(s, Abort(t, side));
    AbortCounts(s, t, side);
  }

  lemma HolderWork(s: State, e: Event)
    requires Inv(s) && Closing(s, e) && (e.Release? || e.Downgrade?)
    ensures Crowd(Next(s, e)) <= Crowd(s) && Work(Next(s, e)) < Work(s)
  {
    StepWeight(s, e);
    match e
    case Release(t, side) => ReleaseCount(s, t, side);
    case Downgrade(t) => DowngradeCount(s, t);
  }

  lemma ClosingWork(s: State, e: Event)
    requires Inv(s) && Closing(s, e)
    ensures Crowd(Next(s, e)) <= Crowd(s) && Work(Next(s, e)) <= Work(s)
    ensures Work(Next(s, e)) == Work(s) ==> Count(Next(s, e), Signalled) < Count(s, Signalled)
  {
    hide Inv, ArriveStep, LoopTurn, ExpireStep, ReleaseSide, Abandon, DowngradeCore;
    match e
    case Resume(t, side) => ResumeWork(s, t, side);
    case Expire(t, side) => ExpireWork(s, t, side);
    case Abort(t, side) => AbortWork(s, t, side);
    case Cancel(t, side) => RestatusCount(s, Next(s, e), t, side, Cancelling, Cancelling);
    case ResetMarker(t) =>
    case Release(_, _) => HolderWork(s, e);
    case Downgrade(_) => HolderWork(s, e);
  }

  lemma ClosingDecreases(s: State, e: Event, n: nat)
    requires Inv(s) && Closing(s, e) && Crowd(s) <= n
    ensures Inv(Next(s, e)) && Crowd(Next(s, e)) <= n
    ensures 0 <= Measure(Next(s, e), n) < Measure(s, n)
  {
    hide Inv, Exec, Work, Count, Crowd;
    StepInv(s, e);
    ClosingWork(s, e);
    WorkNatural(Next(s, e));
    LedgerOf(Next(s, e));
    CountBound(Next(s, e), Signalled);
    Lexicographic(Work(Next(s, e)), Count(Next(s, e), Signalled), Work(s), Count(s, Signalled), n);
  }

  ghost predicate ClosedRun(ss: seq<State>, es: seq<Event>) {
    Run(ss, es) && forall i :: 0 <= i < |es| ==> Closing(ss[i], es[i])
  }

  // Every closed run is finite: its length is bounded by the measure of its first state.
  lemma {:induction false} ClosedRunsAreBounded(ss: seq<State>, es: seq<Event>, n: nat)
    requires ClosedRun(ss, es) && Inv(ss[0]) && Crowd(ss[0]) <= n
    ensures |es| <= Measure(ss[0], n)
    ensures Inv(ss[|es|])
    decreases |es|
  {
    hide LedgerOK, PhaseOK, ReadersBlocked, WritersAwake, Exec, Measure, Crowd;
    MeasureNatural(ss[0], n);
    if es == [] {
    } else {
      ClosingDecreases(ss[0], es[0], n);
      ClosedRunsAreBounded(ss[1..], es[1..], n);
    }
  }

  // ---- Where closed runs end ----

  // A plain variant's writer that requested the lock again waits for itself.
  predicate SelfBlocked(s: State) {
    Writer(s).Some? && Waits(s, Writer(s).value)
  }

  // Steps that do not depend on a timeout, a cancellation or a caller's choice: a signalled
  // waiter runs, a cancelled task aborts, a granted writer finishes its acquire, a holder
  // releases what it holds.
  predicate Due(s: State, e: Event) {
    && Closing(s, e)
    && match e
       case Resume(_, _) | ResetMarker(_) => true
       case Abort(t, side) => StatusOf(s, side, t).Cancelling?
       case Release(t, Read) => t in s.readerOwners
       case Release(t, Write) => Writer(s) == Some(t)
       case _ => false
  }

  ghost predicate Stopped(s: State) {
    forall e :: !Due(s, e)
  }

  predicate Empty(s: State) {
    Unheld(s) && s.read.room.inside == map[] && s.write.room.inside == map[] && s.clearing == {}
  }

  lemma HolderCanRelease(s: State) returns (e: Event)
    requires Inv(s) && !SelfBlocked(s) && !Unheld(s)
    ensures Due(s, e)
  {
    ReadersFacts(s);
    if s.clearing != {} {
      var t :| t in s.clearing;
      e := ResetMarker(t);
    } else if HasWriter(s) {
      var t := Writer(s).value;
      e := Release(t, Write);
      assert s.marker != Some(t);
      assert ReleaseWriteCore(s, t).Some?;
    } else {
      var t :| t in s.readerOwners;
      e := Release(t, Read);
      assert ReleaseReadCore(s, t).Some?;
    }
  }

  // The writer waits for itself and everybody else inside sleeps as well.
  ghost predicate SelfStuck(s: State) {
    SelfBlocked(s) && s.clearing == {} &&
    forall t, side :: Inside(s, side, t) ==> StatusOf(s, side, t).Parked?
  }

  // A closed run can stop, in the sense that no due step is left, exactly when nobody holds
  // the lock, nobody waits and nobody is inside an acquire; or else a writer has requested
  // the lock it holds and everybody sleeps.
  lemma StopsExactlyWhen(s: State)
    requires Inv(s)
    ensures Stopped(s) <==> Empty(s) || SelfStuck(s)
  {
    ReadersFacts(s);
    if SelfBlocked(s) {
      SelfBlockedStops(s);
    } else if s.clearing != {} {
      var t :| t in s.clearing;
      assert Due(s, ResetMarker(t));
    } else if !Unheld(s) {
      var e := HolderCanRelease(s);
    } else if !Empty(s) {
      var t :| t in s.read.room.inside || t in s.write.room.inside;
      assert Waits(s, t);
      InvNoLostWakeup(s);
      if SomeoneReady(s) {
        var u, side :| Ready(s, u, side);
        assert Due(s, Resume(u, side));
      } else {
        var u, side :| Dying(s, u, side);
        assert Due(s, Abort(u, side));
      }
    }
  }

  lemma SelfBlockedStops(s: State)
    requires Inv(s) && SelfBlocked(s)
    ensures Stopped(s) <==> SelfStuck(s)
  {
    if Stopped(s) {
      forall t, side | Inside(s, side, t) ensures StatusOf(s, side, t).Parked? {
        assert !Due(s, Resume(t, side)) && !Due(s, Abort(t, side));
      }
      forall t ensures t !in s.clearing {
        assert !Due(s, ResetMarker(t));
      }
    }
  }

  lemma OneSide(s: State, t: ThreadId)
    requires Inv(s)
    ensures !(Inside(s, Read, t) && Inside(s, Write, t))
  {}

  // ---- From where closed runs drain ----

  // The writer of a plain variant waits for the lock it holds, and is not being cancelled.
  predicate Trapped(s: State) {
    && Writer(s).Some?
    && (StaysInside(s, Read, Writer(s).value) || StaysInside(s, Write, Writer(s).value))
  }

  predicate StaysInside(s: State, side: Side, t: ThreadId) {
    Inside(s, side, t) && !StatusOf(s, side, t).Cancelling?
  }

  // Closed steps neither seat nor save anybody from cancellation.
  lemma ClosingKeepsOut(s: State, e: Event, t: ThreadId, x: Side)
    requires Inv(s) && Closing(s, e) && StaysInside(Next(s, e), x, t)
    ensures StaysInside(s, x, t)
    ensures Exec(s, e).1 == Granted && e.side == x ==> t != e.t
  {
    hide Inv, ArriveStep, LoopTurn, ExpireStep, ReleaseSide, Abandon, DowngradeCore;
    StepSeats(s, e, x);
    StepDoomed(s, e, x);
    assert t in Seats(Next(s, e), x) && t in Seats(s, x);
    assert t !in Doomed(Next(s, e), x);
  }

  // Closed steps never trap a writer.
  lemma TrappedKept(s: State, e: Event)
    requires Inv(s) && Closing(s, e) && Trapped(Next(s, e))
    ensures Trapped(s)
  {
    hide Inv, Exec, May;
    var w := Writer(Next(s, e)).value;
    var x := if StaysInside(Next(s, e), Read, w) then Read else Write;
    ClosingKeepsOut(s, e, w, x);
    if Writer(s) != Some(w) {
      GrantToWaiter(s, e);
      OneSide(s, w);
      assert false;
    }
  }

  // In a closed run only a waiting caller becomes the writer.
  lemma GrantToWaiter(s: State, e: Event)
    requires Inv(s) && Closing(s, e) && Writer(Next(s, e)).Some? && Writer(Next(s, e)) != Writer(s)
    ensures Writer(Next(s, e)) == Some(e.t) && Exec(s, e).1 == Granted && e.side == Write && Inside(s, Write, e.t)
  {
    hide LedgerOK, PhaseOK, ReadersBlocked, WritersAwake, ArriveStep, LoopTurn, ExpireStep, ReleaseSide, DowngradeCore;
    StepRefines(s, e);
    assert ActionOf(s, e) == TakeWrite(e.t);
  }

  // Under a trapped writer the due steps change no hold and leave the writer where it is.
  lemma DueUnderTrapped(s: State, e: Event)
    requires Inv(s) && Due(s, e) && Trapped(s)
    ensures ActionOf(s, e) == Stutter && Exec(s, e).1 != Granted
    ensures e.Resume? || e.ResetMarker? || (e.Abort? && !StaysInside(s, e.side, e.t))
  {
    ReadersFacts(s);
  }

  lemma DueKeepsTrapped(s: State, e: Event)
    requires Inv(s) && Due(s, e) && Trapped(s)
    ensures Trapped(Next(s, e))
  {
    var w := Writer(s).value;
    var x := if StaysInside(s, Read, w) then Read else Write;
    assert w in Seats(s, x) && w !in Doomed(s, x);
    hide Inv, Exec, Due;
    DueUnderTrapped(s, e);
    StepRefines(s, e);
    WriterOfView(s, Next(s, e));
    DueKeepsSeat(s, e, w, x);
  }

  lemma DueKeepsSeat(s: State, e: Event, w: ThreadId, x: Side)
    requires Inv(s) && Enabled(s, e) && StaysInside(s, x, w) && Exec(s, e).1 != Granted
    requires e.Resume? || e.ResetMarker? || (e.Abort? && !StaysInside(s, e.side, e.t))
    ensures StaysInside(Next(s, e), x, w)
  {
    assert w in Seats(s, x) && w !in Doomed(s, x);
    hide Inv, Exec;
    StepSeats(s, e, x);
    StepDoomed(s, e, x);
    assert w in Seats(Next(s, e), x) && w !in Doomed(Next(s, e), x);
  }

  lemma WriterOfView(s: State, s': State)
    requires View(s) == View(s')
    ensures Writer(s) == Writer(s')
  {}

  lemma ClosedRunCons(s: State, e: Event, ss: seq<State>, es: seq<Event>)
    requires ClosedRun(ss, es) && Closing(s, e) && ss[0] == Next(s, e)
    ensures ClosedRun([s] + ss, [e] + es)
  {}

  // The due steps lead from every state to a stop, and a trapped writer stays trapped.
  lemma {:induction false} DueRun(s: State, n: nat) returns (ss: seq<State>, es: seq<Event>)
    requires Inv(s) && Crowd(s) <= n
    ensures ClosedRun(ss, es) && ss[0] == s && Stopped(ss[|es|])
    ensures Trapped(s) ==> Trapped(ss[|es|])
    decreases Measure(s, n)
  {
    hide Inv, Exec, Measure, Crowd, Trapped;
    if Stopped(s) {
      ss, es := [s], [];
    } else {
      var e :| Due(s, e);
      assert Closing(s, e);
      ClosingDecreases(s, e, n);
      MeasureNatural(s, n);
      if Trapped(s) {
        DueKeepsTrapped(s, e);
      }
      ss, es := DueRun(Next(s, e), n);
      ClosedRunCons(s, e, ss, es);
      ss, es := [s] + ss, [e] + es;
    }
  }

  // Every closed run that comes to a stop has emptied the lock.
  ghost predicate DrainsFrom(s: State) {
    forall ss: seq<State>, es: seq<Event> ::
      ClosedRun(ss, es) && ss[0] == s && Stopped(ss[|es|]) ==> Empty(ss[|es|])
  }

  // Main result: closed runs drain exactly from the states without a trapped writer.
  lemma DrainsExactlyWhen(s: State)
    requires Inv(s)
    ensures DrainsFrom(s) <==> !Trapped(s)
  {
    hide Inv, Exec, Trapped, Empty;
    WorkNatural(s);
    var ss, es := DueRun(s, Crowd(s));
    if Trapped(s) {
      TrappedNotEmpty(ss[|es|]);
    } else {
      forall ss: seq<State>, es: seq<Event> | ClosedRun(ss, es) && ss[0] == s && Stopped(ss[|es|])
        ensures Empty(ss[|es|])
      {
        UntrappedStop(ss, es);
      }
    }
  }

  lemma TrappedNotEmpty(s: State)
    requires Trapped(s)
    ensures !Empty(s)
  {}

  lemma UntrappedStop(ss: seq<State>, es: seq<Event>)
    requires ClosedRun(ss, es) && Inv(ss[0]) && !Trapped(ss[0])
    ensures Stopped(ss[|es|]) <==> Empty(ss[|es|])
  {
    RunInv(ss, es, |es|);
    NeverTrapped(ss, es, |es|);
    StopsExactlyWhen(ss[|es|]);
  }

  lemma {:induction false} NeverTrapped(ss: seq<State>, es: seq<Event>, k: nat)
    requires ClosedRun(ss, es) && Inv(ss[0]) && !Trapped(ss[0]) && k < |ss|
    ensures !Trapped(ss[k])
  {
    hide Inv, Exec, Closing, Trapped;
    if k > 0 {
      NeverTrapped(ss, es, k - 1);
      RunInv(ss, es, k - 1);
      if Trapped(ss[k]) {
        TrappedKept(ss[k - 1], es[k - 1]);
      }
    }
  }

  // A closed run has at most Measure steps, and one that starts without a trapped writer
  // can stop exactly in the empty lock.
  lemma ClosedRunsDrain(ss: seq<State>, es: seq<Event>)
    requires ClosedRun(ss, es) && Reachable(ss[0])
    ensures |es| <= Measure(ss[0], Crowd(ss[0]))
    ensures !Trapped(ss[0]) ==> (Stopped(ss[|es|]) <==> Empty(ss[|es|]))
  {
    ReachableInv(ss[0]);
    WorkNatural(ss[0]);
    ClosedRunsAreBounded(ss, es, Crowd(ss[0]));
    if !Trapped(ss[0]) {
      UntrappedStop(ss, es);
    }
  }

  // Thread 0 holds write and sleeps in a second request for it.
  function SelfParked(cfg: Config): State {
    FirstWriter(cfg).(write := Proxy(1, 1, Room([0], map[0 := Waiter(1, Parked)])))
  }

  // In a plain variant a thread that requests write while holding it sleeps for good.
  lemma SelfRequestNeverDrains(cfg: Config)
    requires !cfg.reentrant
    ensures Reachable(SelfParked(cfg)) && !Empty(SelfParked(cfg)) && Stopped(SelfParked(cfg))
    ensures !DrainsFrom(SelfParked(cfg))
  {
    FirstWriterReachable(cfg);
    assert Next(FirstWriter(cfg), Arrive(0, Write, true)) == SelfParked(cfg);
    ReachableStep(FirstWriter(cfg), Arrive(0, Write, true));
    ReachableInv(SelfParked(cfg));
    assert SelfStuck(SelfParked(cfg)) && Trapped(SelfParked(cfg));
    StopsExactlyWhen(SelfParked(cfg));
    DrainsExactlyWhen(SelfParked(cfg));
  }
}
