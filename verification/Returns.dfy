// What a wait means over whole runs: it reports a notification only if there was one, and its
// caller can always come back.
module Returns {
  import opened WaitQueues
  import opened LockModel
  import opened Ledger
  import opened Invariant
  import opened Preservation
  import opened Population
  import opened Refinement
  import opened Schedules
  import opened Wakeups
  import opened Drain
  import opened Causes
  import C = Condition
  import opened Condition
  import opened WaitSteps

  // ---- Reports are true ----

  // Step k is a notification that wakes t.
  ghost predicate Notified(cs: seq<Cond>, xs: seq<CondEvent>, k: nat, t: ThreadId)
    requires CondSteps(cs, xs) && k < |xs|
  {
    && (xs[k].Notify? || xs[k].NotifyAll?)
    && IsParked(cs[k].room, t) && t in cs[k + 1].room.inside && cs[k + 1].room.inside[t].status.Signalled?
  }

  // t has been signalled, or has noted that it was.
  predicate HasNotice(c: Cond, t: ThreadId) {
    || (t in c.room.inside && c.room.inside[t].status.Signalled?)
    || (t in c.phases && c.phases[t].Reacquiring? && c.phases[t].got)
  }

  // Only a notification gives notice.
  lemma NoticeStep(c: Cond, x: CondEvent, t: ThreadId)
    requires CondInv(c) && C.May(c, x) && !HasNotice(c, t) && HasNotice(Step(c, x), t)
    ensures x.Notify? || x.NotifyAll?
    ensures IsParked(c.room, t)
    ensures t in Step(c, x).room.inside && Step(c, x).room.inside[t].status.Signalled?
  {
    hide Inv, Fits, Exec, ReleaseSide, IsOwned, OwnedDepth, HoldsMode, WaitQueues.Notify, WaitQueues.NotifyAll;
    if x.Notify? {
      NotifyWakes(c.room, x.n);
    } else if x.NotifyAll? {
      NotifyAllSignals(c.room);
    }
  }

  lemma {:induction false} NoticeComesFrom(cs: seq<Cond>, xs: seq<CondEvent>, i: nat, j: nat, t: ThreadId)
    requires CondSteps(cs, xs) && CondInv(cs[0]) && i < j < |cs|
    requires !HasNotice(cs[i], t) && HasNotice(cs[j], t)
    ensures exists k :: i <= k < j && Notified(cs, xs, k, t)
  {
    hide CondInv, Step, C.May, HasNotice;
    CondStepsInv(cs, xs, j - 1);
    if HasNotice(cs[j - 1], t) {
      NoticeComesFrom(cs, xs, i, j - 1, t);
    } else {
      assert cs[j - 1 + 1] == Step(cs[j - 1], xs[j - 1]);
      NoticeStep(cs[j - 1], xs[j - 1], t);
      assert Notified(cs, xs, j - 1, t);
    }
  }

  // Main result: a wait that registered at step i and wakes up notified, or returns True,
  // was woken by a notification after it had registered.
  lemma WaitReportsTruly(cs: seq<Cond>, xs: seq<CondEvent>, i: nat, j: nat, t: ThreadId)
    requires CondRun(cs, xs) && i < j < |xs| && xs[i] == Register(t)
    requires xs[j] == Wake(t) || (xs[j] == Return(t) && t in cs[j].phases && cs[j].phases[t].got)
    ensures exists k :: i < k < j && Notified(cs, xs, k, t)
  {
    hide CondInv, Step, HasNotice;
    CondRunInv(cs, xs, i);
    assert cs[i + 1] == Step(cs[i], xs[i]);
    NoNoticeYet(cs[i], t);
    NoticeAtEnd(cs[j], xs[j], t);
    InitCondInv(cs, xs);
    NoticeComesFrom(cs, xs, i + 1, j, t);
  }

  lemma NoNoticeYet(c: Cond, t: ThreadId)
    requires CondInv(c) && C.May(c, Register(t))
    ensures !HasNotice(Step(c, Register(t)), t)
  {
    RegisterQueues(c, t);
    hide Inv, StandingOf;
  }

  lemma NoticeAtEnd(c: Cond, x: CondEvent, t: ThreadId)
    requires C.May(c, x) && (x == Wake(t) || (x == Return(t) && t in c.phases && c.phases[t].got))
    ensures HasNotice(c, t)
  {}

  lemma InitCondInv(cs: seq<Cond>, xs: seq<CondEvent>)
    requires CondRun(cs, xs)
    ensures CondInv(cs[0])
  {
    CondRunInv(cs, xs, 0);
  }

  // ---- A wait can go its way ----

  // A caller with one hold can always go to sleep: it calls, registers and unlocks, and then
  // holds nothing and sleeps last in the queue.  Only a writer that owes a notification must
  // send it first.
  lemma FallsAsleep(c: Cond, t: ThreadId, mode: Side, checked: bool) returns (cs: seq<Cond>)
    requires CondInv(c) && Outside(c, t) && StandingOf(c.lock, t) == OneHold(mode)
    requires (checked ==> !c.truth) && (c.owed ==> mode == Read)
    ensures CondSteps(cs, [Call(t, mode, checked), Register(t), Unlock(t)]) && cs[0] == c
    ensures cs[3].phases == c.phases[t := Asleep(mode, checked)] && StandingOf(cs[3].lock, t) == NOTHING
    ensures cs[3].room.queue == c.room.queue + [t] && IsParked(cs[3].room, t)
  {
    hide Inv, StandingOf, ReleaseSide, Fits, RoomOK;
    var c1 := Step(c, Call(t, mode, checked));
    CallKeeps(c, t, mode, checked);
    RegisterQueues(c1, t);
    RegisterKeeps(c1, t);
    var c2 := Step(c1, Register(t));
    StandsFree(c.lock, t, mode);
    UnlockReleases(c2, t);
    cs := [c, c1, c2, Step(c2, Unlock(t))];
  }

  lemma StandsFree(s: State, t: ThreadId, mode: Side)
    requires StandingOf(s, t) == OneHold(mode)
    ensures Free(s, t)
  {}

  // A sleeping caller that was signalled can wake up and is then on its way back.
  lemma SignalledCanWake(c: Cond, t: ThreadId)
    requires CondInv(c) && t in c.phases && c.phases[t].Asleep?
    requires t in c.room.inside && c.room.inside[t].status.Signalled?
    ensures C.May(c, Wake(t)) && BackAgain(Step(c, Wake(t)), t) && Step(c, Wake(t)).phases[t].got
  {}

  // ---- Every caller can come back ----

  // No writer is trapped or owes a notification, and callers still on their way to sleep
  // have nothing to do with the lock.
  ghost predicate Passable(c: Cond) {
    && !c.owed && !Trapped(c.lock)
    && forall u :: u in c.phases ==> c.phases[u].Reacquiring? || StandingOf(c.lock, u) == NOTHING
  }

  predicate BackAgain(c: Cond, t: ThreadId) {
    t in c.phases && c.phases[t].Reacquiring?
  }

  // A run of the condition that ends with t's return.
  ghost predicate EndsInReturn(cs: seq<Cond>, xs: seq<CondEvent>, c: Cond, t: ThreadId) {
    && CondSteps(cs, xs) && cs[0] == c && xs != [] && xs[|xs| - 1] == Return(t)
  }

  lemma RunCons(c: Cond, x: CondEvent, cs: seq<Cond>, xs: seq<CondEvent>, t: ThreadId)
    requires C.May(c, x) && EndsInReturn(cs, xs, Step(c, x), t)
    ensures EndsInReturn([c] + cs, [x] + xs, c, t)
  {}

  // A caller that holds the lock again finishes its acquire, if it has to, and returns.
  lemma HolderReturns(c: Cond, t: ThreadId) returns (cs: seq<Cond>, xs: seq<CondEvent>)
    requires CondInv(c) && BackAgain(c, t) && HoldsMode(c.lock, t, c.phases[t].mode) && !c.owed
    ensures EndsInReturn(cs, xs, c, t)
  {
    HolderStands(c, t);
    if t in c.lock.clearing {
      var x := Lock(ResetMarker(t));
      ResetAllowed(c, t);
      var c' := Step(c, x);
      CondStep(c, x);
      HolderStands(c', t);
      ResetFrees(c, t);
      cs, xs := [c', Step(c', Return(t))], [Return(t)];
      assert EndsInReturn(cs, xs, c', t);
      hide CondInv, Step, C.May;
      RunCons(c, x, cs, xs, t);
      cs, xs := [c] + cs, [x] + xs;
    } else {
      cs, xs := [c, Step(c, Return(t))], [Return(t)];
    }
  }

  lemma HolderStands(c: Cond, t: ThreadId)
    requires CondInv(c) && BackAgain(c, t) && HoldsMode(c.lock, t, c.phases[t].mode)
    ensures StandingOf(c.lock, t).(clearing := false) == OneHold(c.phases[t].mode)
    ensures t in c.room.inside && (t !in c.lock.clearing ==> C.May(c, Return(t)))
  {
    hide Inv;
    assert Fits(c, t);
  }

  lemma ResetAllowed(c: Cond, t: ThreadId)
    requires CondInv(c) && BackAgain(c, t) && t in c.lock.clearing && !c.owed
    ensures C.May(c, Lock(ResetMarker(t)))
  {}

  lemma ResetFrees(c: Cond, t: ThreadId)
    requires C.May(c, Lock(ResetMarker(t))) && BackAgain(c, t) && HoldsMode(c.lock, t, c.phases[t].mode)
    ensures var c' := Step(c, Lock(ResetMarker(t)));
            && BackAgain(c', t) && c'.phases == c.phases && t !in c'.lock.clearing
            && HoldsMode(c'.lock, t, c'.phases[t].mode)
  {}

  // In an empty lock nothing excludes the caller.
  lemma EmptyLetsThrough(s: State, t: ThreadId, mode: Side)
    requires Inv(s) && Empty(s)
    ensures GoesStraightThrough(s, t, mode)
  {
    ListedWaits(s.read);
    ListedWaits(s.write);
    assert Reserved(s.read.room, s.cutoff) == {};
  }

  lemma AskerReturns(c: Cond, t: ThreadId) returns (cs: seq<Cond>, xs: seq<CondEvent>)
    requires CondInv(c) && BackAgain(c, t) && !HoldsMode(c.lock, t, c.phases[t].mode) && !c.owed && Empty(c.lock)
    ensures EndsInReturn(cs, xs, c, t)
  {
    var x := Relock(t);
    EmptyAllowsAsking(c, t);
    RelockAsks(c, t);
    CondStep(c, x);
    LedgerAndGate(c, t);
    var c' := Step(c, x);
    AskedHolds(c, t);
    hide CondInv, Step, C.May, HoldsMode;
    cs, xs := HolderReturns(c', t);
    RunCons(c, x, cs, xs, t);
    cs, xs := [c] + cs, [x] + xs;
  }

  lemma EmptyAllowsAsking(c: Cond, t: ThreadId)
    requires BackAgain(c, t) && !HoldsMode(c.lock, t, c.phases[t].mode) && Empty(c.lock)
    ensures C.May(c, Relock(t))
  {}

  lemma LedgerAndGate(c: Cond, t: ThreadId)
    requires CondInv(c) && BackAgain(c, t) && Empty(c.lock)
    ensures GoesStraightThrough(c.lock, t, c.phases[t].mode)
  {
    CondParts(c);
    EmptyLetsThrough(c.lock, t, c.phases[t].mode);
  }

  lemma AskedHolds(c: Cond, t: ThreadId)
    requires CondInv(c) && C.May(c, Relock(t)) && GoesStraightThrough(c.lock, t, c.phases[t].mode) && !c.owed
    ensures var c' := Step(c, Relock(t));
            && BackAgain(c', t) && c'.phases == c.phases && !c'.owed && HoldsMode(c'.lock, t, c'.phases[t].mode)
  {
    RelockAsks(c, t);
    hide Inv, Exec;
  }

  // A due release of a caller that is itself on its way back: it returns first.
  lemma ReleaserReturns(c: Cond, e: Event, t: ThreadId)
    requires CondInv(c) && Passable(c) && BackAgain(c, t) && !HoldsMode(c.lock, t, c.phases[t].mode)
    requires Due(c.lock, e) && e.Release? && e.t in c.phases
    ensures C.May(c, Return(e.t)) && e.t != t
    ensures var c' := Step(c, Return(e.t));
            && CondInv(c') && Passable(c') && BackAgain(c', t) && c'.lock == c.lock && |c'.phases| < |c.phases|
  {
    ReleaserHolds(c, e, t);
    CondStep(c, Return(e.t));
    ReturnIs(c, e.t);
    MapMinus(c.phases, e.t);
    hide CondInv, Due, Exec;
  }

  lemma ReleaserHolds(c: Cond, e: Event, t: ThreadId)
    requires CondInv(c) && Passable(c) && BackAgain(c, t) && !HoldsMode(c.lock, t, c.phases[t].mode)
    requires Due(c.lock, e) && e.Release? && e.t in c.phases
    ensures C.May(c, Return(e.t)) && e.t != t
  {
    hide Inv, Exec, Due, Trapped, StandingOf, ActionOf;
    DueReleaserHolds(c.lock, e);
    StandsAs(c.lock, e.t);
    StandsAs(c.lock, t);
    assert Fits(c, e.t) && Fits(c, t);
  }

  lemma StandsAs(s: State, t: ThreadId)
    ensures StandingOf(s, t).readDepth == ReadDepth(s, t) && StandingOf(s, t).writeDepth == WriteDepth(s, t)
  {}

  lemma DueReleaserHolds(s: State, e: Event)
    requires Inv(s) && Due(s, e) && e.Release?
    ensures Free(s, e.t) && (ReadDepth(s, e.t) > 0 || WriteDepth(s, e.t) > 0)
  {
    ViewExclusive(s);
    ReadersFacts(s);
  }

  // Any other due step of the lock may happen, and keeps the way back open.
  lemma DueStepAllowed(c: Cond, e: Event)
    requires CondInv(c) && Passable(c) && Due(c.lock, e) && !(e.Release? && e.t in c.phases)
    ensures C.May(c, Lock(e))
    ensures ActionOf(c.lock, e).DropWrite? ==> Writer(c.lock) == Some(e.t)
  {
    DueConcerns(c.lock, e);
    if e.t in c.phases {
      assert Fits(c, e.t);
    }
    hide Inv, Exec, Trapped, Fits;
  }

  // Who takes a due step is inside the loop, about to reset the marker, or a holder.
  lemma DueConcerns(s: State, e: Event)
    requires Inv(s) && Due(s, e)
    ensures Enabled(s, e) && (e.Resume? || e.ResetMarker? || e.Abort? || e.Release?)
    ensures e.Abort? ==> s.cfg.runtime.Tasks?
    ensures !e.Release? ==> StandingOf(s, e.t) != NOTHING
    ensures ActionOf(s, e).DropWrite? ==> Writer(s) == Some(e.t)
  {
    ReadersFacts(s);
    hide ArriveStep, LoopTurn, ExpireStep, Abandon, DowngradeCore, OnWriterAbort, AfterLastReader;
  }

  lemma DueStepKeeps(c: Cond, e: Event, t: ThreadId)
    requires CondInv(c) && Passable(c) && BackAgain(c, t) && Due(c.lock, e) && !(e.Release? && e.t in c.phases)
    ensures C.May(c, Lock(e))
    ensures var c' := Step(c, Lock(e));
            CondInv(c') && Passable(c') && BackAgain(c', t) && c'.lock == Next(c.lock, e)
  {
    DueStepAllowed(c, e);
    CondStep(c, Lock(e));
    CondParts(c);
    var c' := Step(c, Lock(e));
    DueConcerns(c.lock, e);
    if Trapped(c'.lock) {
      TrappedKept(c.lock, e);
    }
    hide CondInv, Inv, Exec, Trapped, StandingOf, ActionOf;
    forall u | u in c'.phases ensures c'.phases[u].Reacquiring? || StandingOf(c'.lock, u) == NOTHING {
      if !c.phases[u].Reacquiring? {
        assert StandingOf(c.lock, u) == NOTHING && u != e.t;
        Bystander(c.lock, e, u);
      }
    }
  }

  lemma StopMeansEmpty(s: State)
    requires Inv(s) && Stopped(s) && !Trapped(s)
    ensures Empty(s)
  {
    StopsExactlyWhen(s);
  }

  // Main result: whoever is on the way back from a wait can get there.  From every state in
  // which no writer is trapped or owes a notification, and nobody sits on the lock on the way
  // to sleep, some run ends with the caller's return.
  lemma {:induction false} CanReturn(c: Cond, t: ThreadId, n: nat) returns (cs: seq<Cond>, xs: seq<CondEvent>)
    requires CondInv(c) && Passable(c) && BackAgain(c, t) && Crowd(c.lock) <= n
    ensures EndsInReturn(cs, xs, c, t)
    decreases Measure(c.lock, n), |c.phases|
  {
    hide CondInv, Inv, Step, C.May, HoldsMode, Due, Exec, Measure, Crowd, Empty, Trapped, StandingOf;
    CondParts(c);
    MeasureNatural(c.lock, n);
    if HoldsMode(c.lock, t, c.phases[t].mode) {
      cs, xs := HolderReturns(c, t);
    } else if Stopped(c.lock) {
      StopMeansEmpty(c.lock);
      cs, xs := AskerReturns(c, t);
    } else {
      var e :| Due(c.lock, e);
      var x := if e.Release? && e.t in c.phases then Return(e.t) else Lock(e);
      if e.Release? && e.t in c.phases {
        ReleaserReturns(c, e, t);
      } else {
        DueStepKeeps(c, e, t);
        DueIsClosing(c.lock, e);
        ClosingDecreases(c.lock, e, n);
      }
      cs, xs := CanReturn(Step(c, x), t, n);
      RunCons(c, x, cs, xs, t);
      cs, xs := [c] + cs, [x] + xs;
    }
  }

  lemma DueIsClosing(s: State, e: Event)
    requires Due(s, e)
    ensures Closing(s, e)
  {}

  // In particular from every state in which nobody holds the lock.
  lemma UnheldIsPassable(c: Cond)
    requires CondInv(c) && Unheld(c.lock)
    ensures Passable(c)
  {
    HoldsNone(c.lock);
    forall u | u in c.phases ensures c.phases[u].Reacquiring? || StandingOf(c.lock, u) == NOTHING {
      assert Fits(c, u);
    }
  }

  lemma HoldsNone(s: State)
    requires Inv(s) && Unheld(s)
    ensures forall u :: ReadDepth(s, u) == 0 && WriteDepth(s, u) == 0
    ensures !HasWriter(s) && !Trapped(s)
  {
    ReadersFacts(s);
  }

  lemma CanReturnToFreeLock(c: Cond, t: ThreadId) returns (cs: seq<Cond>, xs: seq<CondEvent>)
    requires CondInv(c) && Unheld(c.lock) && BackAgain(c, t)
    ensures EndsInReturn(cs, xs, c, t)
  {
    UnheldIsPassable(c);
    CondParts(c);
    WorkNatural(c.lock);
    cs, xs := CanReturn(c, t, Crowd(c.lock));
  }
}
