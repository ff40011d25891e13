// What each step of the condition variable does: whom it wakes, where it queues, what it asks
// of the lock, and that it leaves everybody else alone.
module WaitSteps {
  import opened WaitQueues
  import opened LockModel
  import opened Ledger
  import opened Invariant
  import opened Preservation
  import opened Refinement
  import opened Schedules
  import opened Causes
  import opened Handoffs
  import C = Condition
  import opened Condition

  // ---- Notifications ----

  // `notify(n)` signals exactly the shortest front of the queue that holds n sleeping callers,
  // and changes nothing else.
  lemma NotifyWakesInOrder(c: Cond, t: ThreadId, mode: Side, n: int)
    requires CondInv(c) && C.May(c, CondEvent.Notify(t, mode, n))
    ensures var c' := Step(c, CondEvent.Notify(t, mode, n));
            FifoWake(c.room, if n < 0 then 0 else n, c'.room) && c' == c.(room := c'.room)
  {
    NotifyIsFifo(c.room, if n < 0 then 0 else n);
    NotifyNobody(c.room, n);
  }

  lemma NotifyNobody(r: Room, n: int)
    ensures n <= 0 ==> WaitQueues.Notify(r, n) == r
  {}

  // `notify_all` signals every sleeping caller, and nobody is listed any more.
  lemma NotifyAllWakesEverybody(c: Cond, t: ThreadId, mode: Side)
    requires CondInv(c) && C.May(c, CondEvent.NotifyAll(t, mode))
    ensures var c' := Step(c, CondEvent.NotifyAll(t, mode));
            && c' == c.(room := c'.room, owed := false)
            && c'.room.queue == [] && c'.room.inside.Keys == c.room.inside.Keys
            && forall u :: u in c.room.inside ==>
                 c'.room.inside[u] == if IsParked(c.room, u) then c.room.inside[u].(status := Signalled)
                                      else c.room.inside[u]
  {
    NotifyAllEmpties(c.room);
    NotifyAllSignals(c.room);
    hide WaitQueues.NotifyAll;
  }

  // ---- Going to sleep ----

  // A `wait` that goes ahead stands last in the queue with an unsignalled waiter, before the
  // lock is touched; one that does not changes nothing.
  lemma RegisterQueues(c: Cond, t: ThreadId)
    requires CondInv(c) && C.May(c, Register(t))
    ensures var c' := Step(c, Register(t)); var p := c.phases[t];
            if StandingOf(c.lock, t) == OneHold(p.mode) then
              && c' == c.(room := c'.room, phases := c.phases[t := Registered(p.mode, p.checked)])
              && c'.room.queue == c.room.queue + [t] && IsParked(c'.room, t)
              && c'.room.inside == c.room.inside[t := c'.room.inside[t]]
            else c' == c.(phases := c.phases - {t})
  {
    hide Inv, StandingOf, IsOwned, OwnedDepth;
    assert Fits(c, t);
    CallerIsFree(c, t);
    ChecksMeanOneHold(c.lock, t, c.phases[t].mode);
  }

  // Then it gives up its one hold by the release step of the lock, and nothing else happens.
  lemma UnlockReleases(c: Cond, t: ThreadId)
    requires CondInv(c) && C.May(c, Unlock(t))
    ensures var c' := Step(c, Unlock(t)); var p := c.phases[t]; var e := Release(t, p.mode);
            && Enabled(c.lock, e)
            && c' == c.(lock := Next(c.lock, e), phases := c.phases[t := Asleep(p.mode, p.checked)])
            && View(c'.lock) == Do(View(c.lock), if p.mode == Read then DropRead(t) else DropWrite(t))
            && StandingOf(c'.lock, t) == NOTHING
  {
    hide Inv, StandingOf, ReleaseSide, Do;
    assert Fits(c, t);
    OwnRelease(c.lock, t, c.phases[t].mode);
    StepRefines(c.lock, Release(t, c.phases[t].mode));
  }

  // ---- Waking up ----

  // The end of a sleep is noted, and whether the caller was signalled; only a cancelled
  // task's waiter leaves the queue, and the others keep their order.
  lemma SleepEnds(c: Cond, x: CondEvent)
    requires CondInv(c) && C.May(c, x) && (x.Wake? || x.GiveUp? || x.DropWaiter?)
    ensures var c' := Step(c, x); var p := c.phases[x.t];
            && c' == c.(room := c'.room, phases := c.phases[x.t := Reacquiring(p.mode, p.checked, x.Wake?)])
            && c'.room.inside == c.room.inside
            && (x.Wake? ==> c.room.inside[x.t].status.Signalled?)
            && if x.DropWaiter? then CutOut(c.room.queue, x.t, c'.room.queue) else c'.room.queue == c.room.queue
  {
    hide Inv, Fits;
    DiscardCutsOut(c.room.queue, x.t);
  }

  // Before that, a cancelled task's waiter is finished where it stands.
  lemma CancelFinishesWaiter(c: Cond, t: ThreadId)
    requires CondInv(c) && C.May(c, CancelSleep(t))
    ensures var c' := Step(c, CancelSleep(t));
            && c' == c.(room := c'.room) && c'.room.queue == c.room.queue
            && c'.room.inside == c.room.inside[t := c.room.inside[t].(status := Cancelling)]
  {
    hide Inv, Fits;
  }

  // ---- Coming back ----

  // What a caller without holds gets for asking: the lock, if nothing excludes it, or a seat.
  function AfterAsking(s: State, t: ThreadId, mode: Side): Standing {
    if GoesStraightThrough(s, t, mode)
    then OneHold(mode).(clearing := mode == Write && s.cfg.runtime.Threads?)
    else Seated(mode)
  }

  // Each attempt to come back asks the lock: it takes one hold exactly if nothing excludes
  // the caller, and a seat otherwise; nothing else of the condition changes.
  lemma RelockAsks(c: Cond, t: ThreadId)
    requires CondInv(c) && C.May(c, Relock(t))
    ensures var c' := Step(c, Relock(t)); var mode := c.phases[t].mode; var e := Arrive(t, mode, true);
            && Enabled(c.lock, e) && c' == c.(lock := Next(c.lock, e))
            && StandingOf(c'.lock, t) == AfterAsking(c.lock, t, mode)
            && Exec(c.lock, e).1 == if GoesStraightThrough(c.lock, t, mode) then Granted else Waiting
  {
    hide Inv, Exec, StandingOf, AfterAsking;
    assert Fits(c, t);
    AsksFromNothing(c, t);
    Asking(c.lock, t, c.phases[t].mode);
  }

  lemma AsksFromNothing(c: Cond, t: ThreadId)
    requires t in c.phases && Fits(c, t) && C.May(c, Relock(t))
    ensures StandingOf(c.lock, t) == NOTHING
  {}

  lemma Asking(s: State, t: ThreadId, mode: Side)
    requires Inv(s) && StandingOf(s, t) == NOTHING
    ensures var e := Arrive(t, mode, true);
            && Enabled(s, e)
            && Exec(s, e).1 == (if GoesStraightThrough(s, t, mode) then Granted else Waiting)
            && StandingOf(Next(s, e), t) == AfterAsking(s, t, mode)
  {
    var e := Arrive(t, mode, true);
    AskingOutcome(s, t, mode);
    hide Inv, Exec, WriteDepth, ReadDepth, GoesStraightThrough;
    StepDepths(s, e, t);
    SeatsMean(s, e, t);
  }

  lemma AskingOutcome(s: State, t: ThreadId, mode: Side)
    requires Inv(s) && StandingOf(s, t) == NOTHING
    ensures var e := Arrive(t, mode, true);
            && Enabled(s, e)
            && Exec(s, e).1 == (if GoesStraightThrough(s, t, mode) then Granted else Waiting)
  {
    ReadersFacts(s);
    OutcomeExactly(s, Arrive(t, mode, true));
    hide Exec, GoesStraightThrough;
  }

  // At the end the caller's waiter is gone and it holds the lock once; the others keep their
  // order and the lock is not touched.
  lemma ReturnLeaves(c: Cond, t: ThreadId)
    requires CondInv(c) && C.May(c, Return(t))
    ensures var c' := Step(c, Return(t));
            && c' == c.(room := c'.room, phases := c.phases - {t})
            && c'.room.inside == c.room.inside - {t} && CutOut(c.room.queue, t, c'.room.queue)
            && StandingOf(c'.lock, t) == OneHold(c.phases[t].mode)
  {
    hide Inv, StandingOf, Fits;
    ReturnIs(c, t);
    ReturnStanding(c, t);
    DiscardCutsOut(c.room.queue, t);
    if c.phases[t].got || c.lock.cfg.runtime.Tasks? {
      ReturnedWaiterUnlisted(c, t);
    }
  }
}
