// No wakeup is ever lost, and the other facts about single reachable states.
module Wakeups {
  import opened WaitQueues
  import opened LockModel
  import opened Ledger
  import opened Invariant
  import opened Population
  import opened Preservation
  import opened Refinement

  predicate Unheld(s: State) {
    !HasWriter(s) && s.readersActive == 0
  }

  ghost predicate SomeoneWaits(s: State) {
    exists t :: Waits(s, t)
  }

  // A caller that was signalled and whose guard is true now: when it runs, it is granted.
  predicate Ready(s: State, t: ThreadId, side: Side) {
    && Inside(s, side, t) && StatusOf(s, side, t).Signalled?
    && CanAcquire(s, t, side, true, Some(Ticket(s, side, t)))
  }

  predicate Dying(s: State, t: ThreadId, side: Side) {
    Inside(s, side, t) && StatusOf(s, side, t).Cancelling?
  }

  ghost predicate SomeoneReady(s: State) {
    exists t, side :: Ready(s, t, side)
  }

  ghost predicate SomeoneDying(s: State) {
    exists t, side :: Dying(s, t, side)
  }

  lemma ReadyOrDying(s: State, t: ThreadId, side: Side)
    requires Inv(s) && Unheld(s) && Inside(s, side, t) && !IsParked(ProxyOf(s, side).room, t)
    requires if side == Read then ReadGate(s, Ticket(s, Read, t)) else WriteOpen(s)
    ensures Ready(s, t, side) || Dying(s, t, side)
  {
    WaiterGuards(s, t);
  }

  // Under an open gate no reader is parked, so any waiting reader will do.
  lemma ReaderAwake(s: State, t: ThreadId)
    requires Inv(s) && Unheld(s) && Inside(s, Read, t) && ReadGate(s, Ticket(s, Read, t))
    ensures Ready(s, t, Read) || Dying(s, t, Read)
  {
    ReadyOrDying(s, t, Read);
  }

  lemma InvNoLostWakeup(s: State)
    requires Inv(s) && Unheld(s) && SomeoneWaits(s)
    ensures SomeoneReady(s) || SomeoneDying(s)
    ensures s.cfg.runtime.Threads? ==> SomeoneReady(s)
  {
    ListedWaits(s.read);
    ListedWaits(s.write);
    if WriteOpen(s) && s.write.waiting > 0 {
      var t :| t in s.write.room.inside && !IsParked(s.write.room, t);
      ReadyOrDying(s, t, Write);
    } else if s.cfg.strategy.StrictFair? && PhaseBusy(s) {
      assert Reserved(s.read.room, s.cutoff) != {};
      var t :| t in Reserved(s.read.room, s.cutoff);
      ReaderAwake(s, t);
    } else {
      assert s.write.waiting == 0 ==> exists t :: t in s.read.room.inside;
      var t :| t in s.read.room.inside;
      ReaderAwake(s, t);
    }
  }

  // No lost wakeup, all eight variants: whenever nobody holds the lock and someone waits,
  // some waiter is signalled and may go ahead, or is a cancelled task about to pass the
  // wakeup on.
  lemma NoLostWakeup(s: State)
    requires Reachable(s) && Unheld(s) && SomeoneWaits(s)
    ensures SomeoneReady(s) || SomeoneDying(s)
    ensures s.cfg.runtime.Threads? ==> SomeoneReady(s)
  {
    ReachableInv(s);
    InvNoLostWakeup(s);
  }

  // ---- Cancelled tasks pass the wakeup on ----

  lemma AbortDying(s: State, t: ThreadId, side: Side)
    requires Inv(s) && Dying(s, t, side)
    ensures Enabled(s, Abort(t, side)) && Inv(Next(s, Abort(t, side)))
    ensures Count(Next(s, Abort(t, side)), Cancelling) == Count(s, Cancelling) - 1
    ensures Unheld(Next(s, Abort(t, side))) == Unheld(s)
  {
    StepInv(s, Abort(t, side));
    AbortCounts(s, t, side);
    ReadersFacts(s);
    ReadersFacts(Next(s, Abort(t, side)));
    StepRefines(s, Abort(t, side));
  }

  lemma AbortCounts(s: State, t: ThreadId, side: Side)
    requires Inv(s) && Enabled(s, Abort(t, side))
    ensures Crowd(Next(s, Abort(t, side))) == Crowd(s) - 1
    ensures Next(s, Abort(t, side)).clearing == s.clearing
    ensures Count(Next(s, Abort(t, side)), Cancelling) ==
            Count(s, Cancelling) - (if StatusOf(s, side, t).Cancelling? then 1 else 0)
  {
    RouseInv(s, t, side);
    RestatusCount(s, Rouse(s, t, side), t, side, Signalled, Cancelling);
    AbandonCount(Rouse(s, t, side), t, side);
  }

  // A run of abort steps of cancelled tasks.
  ghost predicate AbortRun(ss: seq<State>, es: seq<Event>) {
    && Run(ss, es)
    && forall i :: 0 <= i < |es| ==> es[i].Abort? && Dying(ss[i], es[i].t, es[i].side)
  }

  lemma AbortRunCons(s: State, e: Event, ss: seq<State>, es: seq<Event>)
    requires AbortRun(ss, es) && Enabled(s, e) && ss[0] == Next(s, e)
    requires e.Abort? && Dying(s, e.t, e.side)
    ensures AbortRun([s] + ss, [e] + es)
  {}

  lemma {:induction false} AbortRunKeeps(ss: seq<State>, es: seq<Event>, k: nat)
    requires AbortRun(ss, es) && Inv(ss[0]) && Unheld(ss[0]) && k <= |es|
    ensures Inv(ss[k]) && Unheld(ss[k])
    ensures Count(ss[k], Cancelling) == Count(ss[0], Cancelling) - k
  {
    hide Inv, Exec, Unheld, Dying;
    if k > 0 {
      AbortRunKeeps(ss, es, k - 1);
      AbortDying(ss[k - 1], es[k - 1].t, es[k - 1].side);
    }
  }

  // From any unheld state, in whatever order the cancelled tasks run their abort steps: each
  // runs once, and when all have, nobody waits or some waiter is ready.
  lemma CancelledPassOn(ss: seq<State>, es: seq<Event>)
    requires AbortRun(ss, es) && Inv(ss[0]) && Unheld(ss[0])
    ensures Unheld(ss[|es|]) && |es| <= Count(ss[0], Cancelling)
    ensures !SomeoneDying(ss[|es|]) <==> |es| == Count(ss[0], Cancelling)
    ensures !SomeoneDying(ss[|es|]) && SomeoneWaits(ss[|es|]) ==> SomeoneReady(ss[|es|])
  {
    hide Inv, Exec, Unheld, Dying;
    AbortRunKeeps(ss, es, |es|);
    if SomeoneDying(ss[|es|]) {
      DyingCounts(ss[|es|]);
    } else {
      NobodyDying(ss[|es|]);
      if SomeoneWaits(ss[|es|]) {
        InvNoLostWakeup(ss[|es|]);
      }
    }
  }

  lemma DyingCounts(s: State)
    requires Inv(s) && SomeoneDying(s)
    ensures Count(s, Cancelling) > 0
  {
    var t, side :| Dying(s, t, side);
    assert t in WithStatus(ProxyOf(s, side).room, Cancelling);
  }

  // And they can always run them all.
  lemma {:induction false} CancelledCanFinish(s: State) returns (ss: seq<State>, es: seq<Event>)
    requires Inv(s) && Unheld(s)
    ensures AbortRun(ss, es) && ss[0] == s && |es| == Count(s, Cancelling)
    ensures Unheld(ss[|es|]) && !SomeoneDying(ss[|es|])
    ensures SomeoneWaits(ss[|es|]) ==> SomeoneReady(ss[|es|])
    decreases Count(s, Cancelling)
  {
    hide Inv, Exec, Unheld, Dying;
    if SomeoneDying(s) {
      var t, side :| Dying(s, t, side);
      AbortDying(s, t, side);
      ss, es := CancelledCanFinish(Next(s, Abort(t, side)));
      AbortRunCons(s, Abort(t, side), ss, es);
      ss, es := [s] + ss, [Abort(t, side)] + es;
    } else {
      ss, es := [s], [];
      if SomeoneWaits(s) {
        InvNoLostWakeup(s);
      }
      NobodyDying(s);
    }
  }

  lemma NobodyDying(s: State)
    requires !SomeoneDying(s)
    ensures Count(s, Cancelling) == 0
  {
    forall t ensures t !in WithStatus(s.read.room, Cancelling) && t !in WithStatus(s.write.room, Cancelling) {
      assert !Dying(s, t, Read) && !Dying(s, t, Write);
    }
    assert WithStatus(s.read.room, Cancelling) == {} && WithStatus(s.write.room, Cancelling) == {};
  }

  // ---- Single states ----

  // No reader sleeps in the queue while its own guard is true.
  lemma ParkedReadersAreBlocked(s: State, t: ThreadId)
    requires Reachable(s) && IsParked(s.read.room, t)
    ensures !CanRead(s, t, true, Some(Ticket(s, Read, t)))
  {
    ReachableInv(s);
    if Writer(s) != Some(t) {
      WaiterGuards(s, t);
    }
  }

  // While a strict-fair phase is open, the pending counter is the number of waiting
  // readers with a ticket up to the cutoff; it is 0 when the phase is closed.
  lemma ReservationAccounting(s: State)
    requires Reachable(s) && s.cfg.strategy.StrictFair?
    ensures s.pending == if s.readersTurn then |Reserved(s.read.room, s.cutoff)| else 0
  {
    ReachableInv(s);
  }

  // An open phase has an active reader or a waiting reader it was opened for.
  lemma PhasesNeverHang(s: State)
    requires Reachable(s) && s.readersTurn
    ensures s.cfg.strategy.ReaderPhaseFair? || s.cfg.strategy.StrictFair?
    ensures s.readersActive > 0 ||
            (exists t :: Inside(s, Read, t) && (s.cfg.strategy.StrictFair? ==> Ticket(s, Read, t) <= s.cutoff))
  {
    ReachableInv(s);
    if s.readersActive <= 0 {
      ReadersFacts(s);
      if s.cfg.strategy.StrictFair? {
        assert Reserved(s.read.room, s.cutoff) != {};
        var t :| t in Reserved(s.read.room, s.cutoff);
        assert Inside(s, Read, t);
      } else {
        assert s.read.room.inside != map[];
        var t :| t in s.read.room.inside;
        assert Inside(s, Read, t);
      }
    }
  }

  // Without a writer, every reader that an open phase was opened for is awake.
  lemma PhaseReadersAreAwake(s: State, t: ThreadId)
    requires Reachable(s) && s.readersTurn && !HasWriter(s) && Inside(s, Read, t)
    requires s.cfg.strategy.StrictFair? ==> Ticket(s, Read, t) <= s.cutoff
    ensures !IsParked(s.read.room, t)
  {
    ReachableInv(s);
    if s.cfg.strategy.StrictFair? {
      assert t in Reserved(s.read.room, s.cutoff);
    }
  }

  // Nobody that holds the lock is made to wait for itself.
  lemma HoldersNeverWait(s: State, t: ThreadId)
    requires Reachable(s) && Waits(s, t)
    ensures t !in s.readerOwners
    ensures s.cfg.reentrant ==> Writer(s) != Some(t)
  {
    ReachableInv(s);
  }

  // The counters of the lock object agree with the callers they count.
  lemma Conservation(s: State)
    requires Reachable(s)
    ensures s.readersActive == Sum(s.readerOwners) && Positive(s.readerOwners)
    ensures s.cfg.reentrant ==> (s.writeCount == 0 <==> s.writerId == None)
    ensures s.read.waiting == |s.read.room.inside| && s.write.waiting == |s.write.room.inside|
    ensures Distinct(s.read.room.queue) && Distinct(s.write.room.queue)
    ensures forall t :: t in s.read.room.queue ==> Inside(s, Read, t)
    ensures forall t :: t in s.write.room.queue ==> Inside(s, Write, t)
    ensures forall t :: Inside(s, Read, t) ==> !Inside(s, Write, t)
  {
    ReachableInv(s);
  }
}
