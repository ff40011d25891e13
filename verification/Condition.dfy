// The condition variable on top of the lock: `wait`, `wait_for`, `notify` and `notify_all`
// of rwlocker/thread_rwlock.py and rwlocker/async_rwlock.py, with timeouts, cancellation
// and any other callers of the lock in between.
module Condition {
  import opened WaitQueues
  import opened LockModel
  import opened Ledger
  import opened Invariant
  import opened Marking
  import opened Preservation
  import opened Refinement
  import opened Seating

  // Where a thread is inside `wait` or `wait_for`.  `checked` marks a `wait_for`, which has
  // found its predicate false before it called `wait`.
  datatype Phase =
    | Calling(mode: Side, checked: bool)                  // about to enter `wait`
    | Registered(mode: Side, checked: bool)               // waiter queued, lock still held
    | Asleep(mode: Side, checked: bool)                   // lock given up
    | Reacquiring(mode: Side, checked: bool, got: bool)   // inside the `finally` block

  // `room` is the condition queue with its waiter objects (tickets are not used), `truth`
  // the predicate of the wait_for callers, and `owed` says that the current writer made it
  // true and has not called notify_all since.
  datatype Cond = Cond(lock: State, room: Room, phases: map<ThreadId, Phase>, truth: bool, owed: bool)

  // ---- What one thread has to do with the lock ----

  datatype Standing = Standing(readDepth: int, writeDepth: int, inRead: bool, inWrite: bool, clearing: bool)

  function StandingOf(s: State, t: ThreadId): Standing {
    Standing(ReadDepth(s, t), WriteDepth(s, t), Inside(s, Read, t), Inside(s, Write, t), t in s.clearing)
  }

  const NOTHING := Standing(0, 0, false, false, false)

  function OneHold(mode: Side): Standing {
    if mode == Read then Standing(1, 0, false, false, false) else Standing(0, 1, false, false, false)
  }

  function Seated(mode: Side): Standing {
    Standing(0, 0, mode == Read, mode == Write, false)
  }

  // On the way back to the lock: nothing yet, waiting for it, or holding it once.
  predicate Returning(st: Standing, mode: Side) {
    st == NOTHING || st == Seated(mode) || st.(clearing := false) == OneHold(mode)
  }

  // `_is_owned_read` / `_is_owned_write`.
  predicate IsOwned(s: State, t: ThreadId, mode: Side) {
    if mode == Read then IsCurrentReader(s, t) else IsCurrentWriter(s, t)
  }

  // `_get_owned_lock_depth`.
  function OwnedDepth(s: State, t: ThreadId): int {
    ReadDepth(s, t) + (if !IsCurrentWriter(s, t) then 0 else if s.cfg.reentrant then s.writeCount else 1)
  }

  // ---- Steps ----

  datatype CondEvent =
    | Lock(e: Event)                                // any lock step outside of `wait`, or of a reacquiring caller
    | SetTruth(t: ThreadId, b: bool)                // the writer changes the predicate
    | Notify(t: ThreadId, mode: Side, n: int)
    | NotifyAll(t: ThreadId, mode: Side)
    | Call(t: ThreadId, mode: Side, checked: bool)  // `wait`, or `wait_for` whose predicate is false
    | Register(t: ThreadId)                         // ownership checks and `_add_waiter`
    | Unlock(t: ThreadId)                           // `self.release()`
    | Wake(t: ThreadId)                             // the waiter was signalled
    | GiveUp(t: ThreadId)                           // threads: timeout or interrupt
    | CancelSleep(t: ThreadId)                      // tasks: the future is cancelled
    | DropWaiter(t: ThreadId)                       // tasks: `except CancelledError` removes the waiter
    | Relock(t: ThreadId)                           // `self.acquire()`, again after each cancellation
    | Return(t: ThreadId)

  predicate Outside(c: Cond, t: ThreadId) {
    t !in c.phases && Free(c.lock, t)
  }

  // Clients release only what they hold, and a writer that made the predicate true notifies
  // everybody before it gives up write.
  predicate Disciplined(c: Cond, e: Event)
    requires Enabled(c.lock, e)
  {
    && (ActionOf(c.lock, e).DropWrite? ==> Writer(c.lock) == Some(e.t))
    && (c.owed ==> HasWriter(Next(c.lock, e)))
  }

  // A caller inside `wait` takes lock steps only on the way back; tasks may be cancelled there.
  predicate LockStepAllowed(c: Cond, e: Event) {
    e.t !in c.phases ||
    (c.phases[e.t].Reacquiring? &&
     (e.Resume? || e.ResetMarker? || (c.lock.cfg.runtime.Tasks? && (e.Cancel? || e.Abort?))))
  }

  predicate Sleeping(c: Cond, t: ThreadId) {
    t in c.phases && c.phases[t].Asleep? && t in c.room.inside
  }

  predicate May(c: Cond, x: CondEvent) {
    match x
    case Lock(e) => LockStepAllowed(c, e) && Enabled(c.lock, e) && Disciplined(c, e)
    case SetTruth(t, b) => Outside(c, t) && Writer(c.lock) == Some(t)
    case Notify(t, mode, n) => Outside(c, t) && IsOwned(c.lock, t, mode)
    case NotifyAll(t, mode) => Outside(c, t) && IsOwned(c.lock, t, mode)
    case Call(t, mode, checked) => Outside(c, t) && (checked ==> !c.truth)
    case Register(t) => t in c.phases && c.phases[t].Calling? && t !in c.room.inside
    case Unlock(t) =>
      && t in c.phases && c.phases[t].Registered? && t in c.room.inside && Free(c.lock, t)
      && (c.owed ==> c.phases[t].mode == Read)
    case Wake(t) => Sleeping(c, t) && c.room.inside[t].status.Signalled?
    case GiveUp(t) => Sleeping(c, t) && c.lock.cfg.runtime.Threads?
    case CancelSleep(t) => Sleeping(c, t) && c.lock.cfg.runtime.Tasks?
    case DropWaiter(t) => Sleeping(c, t) && c.room.inside[t].status.Cancelling?
    case Relock(t) =>
      t in c.phases && c.phases[t].Reacquiring? && Free(c.lock, t) && !HoldsMode(c.lock, t, c.phases[t].mode)
    case Return(t) =>
      && t in c.phases && c.phases[t].Reacquiring? && t in c.room.inside
      && Free(c.lock, t) && HoldsMode(c.lock, t, c.phases[t].mode)
  }

  predicate HoldsMode(s: State, t: ThreadId, mode: Side) {
    if mode == Read then ReadDepth(s, t) > 0 else WriteDepth(s, t) > 0
  }

  function Remove(r: Room, t: ThreadId): Room {
    Room(Discard(r.queue, t), r.inside - {t})
  }

  function Step(c: Cond, x: CondEvent): Cond
    requires May(c, x)
  {
    match x
    case Lock(e) => c.(lock := Next(c.lock, e))
    case SetTruth(t, b) => c.(truth := b, owed := b && (c.owed || !c.truth))
    case Notify(t, mode, n) => c.(room := WaitQueues.Notify(c.room, n))
    case NotifyAll(t, mode) => c.(room := WaitQueues.NotifyAll(c.room), owed := false)
    case Call(t, mode, checked) => c.(phases := c.phases[t := Calling(mode, checked)])
    case Register(t) =>
      var p := c.phases[t];
      if !IsOwned(c.lock, t, p.mode) || OwnedDepth(c.lock, t) != 1 then c.(phases := c.phases - {t})
      else c.(room := Room(c.room.queue + [t], c.room.inside[t := Waiter(0, Parked)]),
              phases := c.phases[t := Registered(p.mode, p.checked)])
    case Unlock(t) =>
      var p := c.phases[t];
      var (lock', ok) := ReleaseSide(c.lock, t, p.mode);
      if ok then c.(lock := lock', phases := c.phases[t := Asleep(p.mode, p.checked)])
      else c.(lock := lock', room := Remove(c.room, t), phases := c.phases - {t})
    case Wake(t) => c.(phases := c.phases[t := Back(c.phases[t], true)])
    case GiveUp(t) => c.(phases := c.phases[t := Back(c.phases[t], false)])
    case CancelSleep(t) =>
      c.(room := c.room.(inside := c.room.inside[t := c.room.inside[t].(status := Cancelling)]))
    case DropWaiter(t) =>
      c.(room := c.room.(queue := Discard(c.room.queue, t)), phases := c.phases[t := Back(c.phases[t], false)])
    case Relock(t) => c.(lock := Next(c.lock, Arrive(t, c.phases[t].mode, true)))
    case Return(t) =>
      // Threads remove a waiter that was not signalled only now; tasks did so before.
      var queue := if c.phases[t].got || c.lock.cfg.runtime.Tasks? then c.room.queue else Discard(c.room.queue, t);
      c.(room := Room(queue, c.room.inside - {t}), phases := c.phases - {t})
  }

  function Back(p: Phase, got: bool): Phase {
    Reacquiring(p.mode, p.checked, got)
  }

  // ---- The invariant ----

  // A wait_for caller whose waiter is unsignalled has nothing to wake up for, unless the
  // writer still owes the notification.
  predicate NotMissed(c: Cond, t: ThreadId, checked: bool) {
    checked && IsParked(c.room, t) && c.truth ==> c.owed
  }

  ghost predicate Fits(c: Cond, t: ThreadId)
    requires t in c.phases
  {
    var st := StandingOf(c.lock, t);
    match c.phases[t]
    case Calling(mode, checked) =>
      !st.inRead && !st.inWrite && !st.clearing && (checked && st == OneHold(mode) ==> !c.truth)
    case Registered(mode, checked) => st == OneHold(mode) && (checked ==> !c.truth)
    case Asleep(mode, checked) => st == NOTHING && NotMissed(c, t, checked)
    case Reacquiring(mode, checked, got) =>
      && Returning(st, mode) && NotMissed(c, t, checked)
      && (got || c.lock.cfg.runtime.Tasks? ==> t !in c.room.queue)
  }

  // Exactly the threads past registration have a waiter object.
  predicate HasWaiter(c: Cond, t: ThreadId) {
    t in c.phases && !c.phases[t].Calling?
  }

  ghost predicate CondInv(c: Cond) {
    && Inv(c.lock) && RoomOK(c.room)
    && (forall t :: t in c.room.inside <==> HasWaiter(c, t))
    && (c.owed ==> HasWriter(c.lock))
    && (forall t :: t in c.phases ==> Fits(c, t))
  }

  lemma CondParts(c: Cond)
    requires CondInv(c)
    ensures Inv(c.lock) && RoomOK(c.room)
  {}

  // ---- Lock steps seen by one thread ----

  // The depths of a thread follow the abstract action of the step.
  lemma StepDepths(s: State, e: Event, t: ThreadId)
    requires Inv(s) && Enabled(s, e)
    requires ActionOf(s, e).DropWrite? ==> Writer(s) == Some(e.t)
    ensures Inv(Next(s, e))
    ensures var act := ActionOf(s, e);
            && WriteDepth(Next(s, e), t) == WriteDepth(s, t) +
                 (if act == TakeWrite(t) then 1 else if act == DropWrite(t) || act == Demote(t) then -1 else 0)
            && ReadDepth(Next(s, e), t) == ReadDepth(s, t) +
                 (if act == TakeRead(t) || act == Demote(t) then 1 else if act == DropRead(t) then -1 else 0)
    ensures ActionOf(s, e) in {Stutter, TakeRead(e.t), TakeWrite(e.t), DropRead(e.t), DropWrite(e.t), Demote(e.t)}
  {
    hide Inv, Exec, May, Do, View, WriteDepth, ReadDepth;
    StepInv(s, e);
    StepRefines(s, e);
    DepthsAfter(s, Next(s, e), ActionOf(s, e), t);
  }

  // Somebody else's step does not change a thread's standing.
  lemma Bystander(s: State, e: Event, t: ThreadId)
    requires Inv(s) && Enabled(s, e) && e.t != t
    requires ActionOf(s, e).DropWrite? ==> Writer(s) == Some(e.t)
    ensures StandingOf(Next(s, e), t) == StandingOf(s, t)
  {
    hide Inv, Exec, WriteDepth, ReadDepth;
    StepDepths(s, e, t);
    SeatsMean(s, e, t);
  }

  lemma SeatsMean(s: State, e: Event, t: ThreadId)
    requires Inv(s) && Enabled(s, e)
    ensures forall x :: Inside(Next(s, e), x, t) <==> t in SeatsAfter(s, e, x)
    ensures forall x :: Inside(s, x, t) <==> t in Seats(s, x)
    ensures Next(s, e).clearing == MarksAfter(s, e).1
  {
    hide Inv, Exec, SeatsAfter, MarksAfter;
    StepSeats(s, e, Read);
    StepSeats(s, e, Write);
    StepMarks(s, e);
    assert forall x :: Inside(Next(s, e), x, t) <==> t in Seats(Next(s, e), x);
  }

  // Giving up one hold succeeds and leaves nothing.
  lemma OwnRelease(s: State, t: ThreadId, mode: Side)
    requires Inv(s) && StandingOf(s, t) == OneHold(mode)
    ensures Enabled(s, Release(t, mode)) && Exec(s, Release(t, mode)).1 == Done
    ensures StandingOf(Next(s, Release(t, mode)), t) == NOTHING
    ensures ActionOf(s, Release(t, mode)) == if mode == Read then DropRead(t) else DropWrite(t)
    ensures mode == Write ==> Writer(s) == Some(t)
    ensures mode == Read ==> HasWriter(Next(s, Release(t, mode))) == HasWriter(s)
  {
    hide PhaseOK, ReadersBlocked, WritersAwake, OnWriterAbort, AfterLastReader;
    ReadersFacts(s);
    ViewExclusive(s);
    var e := Release(t, mode);
    assert mode == Write ==> IsCurrentWriter(s, t) && s.marker != Some(t);
    assert Exec(s, e).1 == Done;
    StepInv(s, e);
    StepRefines(s, e);
    DepthsAfter(s, Next(s, e), ActionOf(s, e), t);
    SeatsMean(s, e, t);
    ViewExclusive(Next(s, e));
  }

  lemma RelockOutcome(s: State, t: ThreadId, mode: Side)
    requires Inv(s) && StandingOf(s, t) == NOTHING
    ensures Enabled(s, Arrive(t, mode, true))
    ensures Exec(s, Arrive(t, mode, true)).1 in {Granted, Waiting}
    ensures HasWriter(s) ==> HasWriter(Next(s, Arrive(t, mode, true)))
  {
    hide PhaseOK, ReadersBlocked, WritersAwake, LoopTurn, AcquireCore, CanRead, CanWrite;
    ReadersFacts(s);
    StepInv(s, Arrive(t, mode, true));
    StepRefines(s, Arrive(t, mode, true));
    ViewExclusive(s);
    ViewExclusive(Next(s, Arrive(t, mode, true)));
  }

  // Asking for the lock without holding anything ends in a hold or in a seat.
  lemma OwnRelock(s: State, t: ThreadId, mode: Side)
    requires Inv(s) && StandingOf(s, t) == NOTHING
    ensures Enabled(s, Arrive(t, mode, true))
    ensures Returning(StandingOf(Next(s, Arrive(t, mode, true)), t), mode)
    ensures HasWriter(s) ==> HasWriter(Next(s, Arrive(t, mode, true)))
    ensures !ActionOf(s, Arrive(t, mode, true)).DropWrite?
  {
    hide Inv, Exec, WriteDepth, ReadDepth, HasWriter;
    RelockOutcome(s, t, mode);
    StepDepths(s, Arrive(t, mode, true), t);
    SeatsMean(s, Arrive(t, mode, true), t);
  }

  lemma ReturnOutcome(s: State, e: Event)
    requires Enabled(s, e) && (e.Resume? || e.ResetMarker? || e.Cancel? || e.Abort?)
    ensures Exec(s, e).1 in (match e case Resume(_, _) => {Granted, Waiting} case Cancel(_, _) => {Waiting}
                             case Abort(_, _) => {Abandoned} case _ => {Done})
  {}

  // Further turns, cancellations and the marker reset keep a caller on its way back.
  lemma OwnReturn(s: State, e: Event, mode: Side)
    requires Inv(s) && Enabled(s, e) && Returning(StandingOf(s, e.t), mode)
    requires e.Resume? || e.ResetMarker? || e.Cancel? || e.Abort?
    ensures Returning(StandingOf(Next(s, e), e.t), mode)
  {
    hide Inv, Exec, WriteDepth, ReadDepth;
    ReturnOutcome(s, e);
    StepDepths(s, e, e.t);
    SeatsMean(s, e, e.t);
  }

  // Passing both checks of `wait` means holding the lock exactly once, in that mode.
  lemma ChecksMeanOneHold(s: State, t: ThreadId, mode: Side)
    requires Inv(s) && Free(s, t)
    ensures (IsOwned(s, t, mode) && OwnedDepth(s, t) == 1) <==> StandingOf(s, t) == OneHold(mode)
  {
    ReadersFacts(s);
  }

  // ---- Every step keeps the invariant ----

  // Nothing that concerns t gets worse.
  lemma FitsFrame(c: Cond, c': Cond, t: ThreadId)
    requires t in c.phases && Fits(c, t) && t in c'.phases && c'.phases[t] == c.phases[t]
    requires StandingOf(c'.lock, t) == StandingOf(c.lock, t) && c'.lock.cfg == c.lock.cfg
    requires c'.truth == c.truth && c'.owed == c.owed
    requires IsParked(c'.room, t) ==> IsParked(c.room, t)
    requires t in c'.room.queue ==> t in c.room.queue
    ensures Fits(c', t)
  {}

  lemma LockKeeps(c: Cond, e: Event)
    requires CondInv(c) && May(c, Lock(e))
    ensures CondInv(Step(c, Lock(e)))
  {
    hide Inv, Exec, ActionOf, StandingOf;
    var c' := Step(c, Lock(e));
    StepInv(c.lock, e);
    forall t | t in c'.phases ensures Fits(c', t) {
      if t != e.t {
        Bystander(c.lock, e, t);
        FitsFrame(c, c', t);
      } else {
        assert Fits(c, t);
        OwnReturn(c.lock, e, c.phases[t].mode);
      }
    }
  }

  // While somebody else is the writer, a thread does not hold the lock.
  lemma WriterExcludes(s: State, t: ThreadId, u: ThreadId, mode: Side)
    requires Inv(s) && Writer(s) == Some(u) && t != u
    ensures StandingOf(s, t) != OneHold(mode)
  {
    ViewExclusive(s);
  }

  lemma SetTruthKeeps(c: Cond, t: ThreadId, b: bool)
    requires CondInv(c) && May(c, SetTruth(t, b))
    ensures CondInv(Step(c, SetTruth(t, b)))
  {
    hide Inv, StandingOf;
    var c' := Step(c, SetTruth(t, b));
    forall u | u in c'.phases ensures Fits(c', u) {
      assert Fits(c, u);
      WriterExcludes(c.lock, u, t, c.phases[u].mode);
    }
    WriterThere(c.lock, t);
  }

  lemma WriterThere(s: State, t: ThreadId)
    requires Writer(s) == Some(t)
    ensures HasWriter(s)
  {}

  lemma NotifyKeeps(c: Cond, x: CondEvent)
    requires CondInv(c) && May(c, x) && (x.Notify? || x.NotifyAll?)
    ensures CondInv(Step(c, x))
  {
    hide Inv, StandingOf, IsOwned, WaitQueues.Notify;
    var c' := Step(c, x);
    NotifyWakes(c.room, if x.Notify? then x.n else |c.room.queue|);
    NotifyShrinks(c.room, if x.Notify? then x.n else |c.room.queue|);
    forall t | t in c'.phases ensures Fits(c', t) {
      assert Fits(c, t);
      assert IsParked(c'.room, t) ==> IsParked(c.room, t);
    }
  }

  lemma CallKeeps(c: Cond, t: ThreadId, mode: Side, checked: bool)
    requires CondInv(c) && May(c, Call(t, mode, checked))
    ensures CondInv(Step(c, Call(t, mode, checked)))
  {
    hide Inv;
    var c' := Step(c, Call(t, mode, checked));
    forall u | u in c'.phases ensures Fits(c', u) {
      if u != t {
        FitsFrame(c, c', u);
      }
    }
  }

  // A step of t on its own waiter and phase leaves the other callers alone.
  lemma OthersFit(c: Cond, c': Cond, t: ThreadId, u: ThreadId)
    requires u in c.phases && u != t && Fits(c, u)
    requires c'.lock == c.lock && c'.truth == c.truth && c'.owed == c.owed
    requires u in c'.phases && c'.phases[u] == c.phases[u]
    requires forall v :: v in c'.room.queue ==> v in c.room.queue || v == t
    requires u in c'.room.inside ==> u in c.room.inside && c'.room.inside[u] == c.room.inside[u]
    ensures Fits(c', u)
  {
    FitsFrame(c, c', u);
  }

  lemma RegisterKeeps(c: Cond, t: ThreadId)
    requires CondInv(c) && May(c, Register(t))
    ensures CondInv(Step(c, Register(t)))
  {
    hide Inv, IsOwned, OwnedDepth, StandingOf;
    var c' := Step(c, Register(t));
    assert Fits(c, t);
    CallerIsFree(c, t);
    ChecksMeanOneHold(c.lock, t, c.phases[t].mode);
    AppendOK(c.room, t, Waiter(0, Parked));
    forall u | u in c'.phases ensures Fits(c', u) {
      if u != t {
        OthersFit(c, c', t, u);
      }
    }
  }

  lemma CallerIsFree(c: Cond, t: ThreadId)
    requires t in c.phases && c.phases[t].Calling? && Fits(c, t)
    ensures Free(c.lock, t)
  {}

  lemma UnlockKeeps(c: Cond, t: ThreadId)
    requires CondInv(c) && May(c, Unlock(t))
    ensures CondInv(Step(c, Unlock(t)))
    ensures t in Step(c, Unlock(t)).phases && Step(c, Unlock(t)).phases[t].Asleep?
    ensures ReleaseSide(c.lock, t, c.phases[t].mode).1
  {
    hide Inv, ActionOf, StandingOf, ReleaseSide;
    var c' := Step(c, Unlock(t));
    var e := Release(t, c.phases[t].mode);
    assert Fits(c, t);
    OwnRelease(c.lock, t, c.phases[t].mode);
    StepInv(c.lock, e);
    assert c'.lock == Next(c.lock, e);
    forall u | u in c'.phases ensures Fits(c', u) {
      if u != t {
        Bystander(c.lock, e, u);
        FitsFrame(c, c', u);
      }
    }
  }

  lemma NothingReturns(mode: Side)
    ensures Returning(NOTHING, mode)
  {}

  lemma PhaseMoveKeeps(c: Cond, x: CondEvent)
    requires CondInv(c) && May(c, x) && (x.Wake? || x.GiveUp? || x.CancelSleep? || x.DropWaiter?)
    ensures CondInv(Step(c, x))
  {
    hide Inv, StandingOf, Returning;
    var c' := Step(c, x);
    DiscardRemoves(c.room.queue, x.t);
    assert Fits(c, x.t);
    NothingReturns(c.phases[x.t].mode);
    forall u | u in c'.phases ensures Fits(c', u) {
      if u != x.t {
        OthersFit(c, c', x.t, u);
      }
    }
  }

  lemma RelockKeeps(c: Cond, t: ThreadId)
    requires CondInv(c) && May(c, Relock(t))
    ensures CondInv(Step(c, Relock(t)))
  {
    hide Inv, Exec, ActionOf;
    var c' := Step(c, Relock(t));
    var e := Arrive(t, c.phases[t].mode, true);
    assert Fits(c, t);
    assert StandingOf(c.lock, t) == NOTHING;
    OwnRelock(c.lock, t, c.phases[t].mode);
    StepInv(c.lock, e);
    forall u | u in c'.phases ensures Fits(c', u) {
      if u != t {
        Bystander(c.lock, e, u);
        FitsFrame(c, c', u);
      }
    }
  }

  lemma ReturnKeeps(c: Cond, t: ThreadId)
    requires CondInv(c) && May(c, Return(t))
    ensures CondInv(Step(c, Return(t)))
    ensures t !in Step(c, Return(t)).room.queue && t !in Step(c, Return(t)).room.inside
  {
    hide Inv, Fits;
    var c' := Step(c, Return(t));
    DiscardRemoves(c.room.queue, t);
    if c.phases[t].got || c.lock.cfg.runtime.Tasks? {
      ReturnedWaiterUnlisted(c, t);
    }
    forall u | u in c'.phases ensures Fits(c', u) {
      OthersFit(c, c', t, u);
    }
  }

  lemma DropIs(c: Cond, t: ThreadId)
    requires May(c, DropWaiter(t))
    ensures t in c.phases && t in c.room.inside
    ensures Step(c, DropWaiter(t)) == c.(room := c.room.(queue := Discard(c.room.queue, t)),
                                         phases := c.phases[t := Back(c.phases[t], false)])
  {}

  lemma ReturnIs(c: Cond, t: ThreadId)
    requires May(c, Return(t))
    ensures var c' := Step(c, Return(t));
            && c' == c.(room := c'.room, phases := c.phases - {t}) && c'.room.inside == c.room.inside - {t}
            && c'.room.queue == (if c.phases[t].got || c.lock.cfg.runtime.Tasks? then c.room.queue
                                 else Discard(c.room.queue, t))
  {}

  // A caller that was notified, and any task, has no entry left when it returns.
  lemma ReturnedWaiterUnlisted(c: Cond, t: ThreadId)
    requires CondInv(c) && May(c, Return(t)) && (c.phases[t].got || c.lock.cfg.runtime.Tasks?)
    ensures t !in c.room.queue
  {
    assert Fits(c, t);
  }

  lemma CondStep(c: Cond, x: CondEvent)
    requires CondInv(c) && May(c, x)
    ensures CondInv(Step(c, x))
  {
    hide CondInv, Step;
    match x
    case Lock(e) => LockKeeps(c, e);
    case SetTruth(t, b) => SetTruthKeeps(c, t, b);
    case Notify(_, _, _) => NotifyKeeps(c, x);
    case NotifyAll(_, _) => NotifyKeeps(c, x);
    case Call(t, mode, checked) => CallKeeps(c, t, mode, checked);
    case Register(t) => RegisterKeeps(c, t);
    case Unlock(t) => UnlockKeeps(c, t);
    case Wake(_) => PhaseMoveKeeps(c, x);
    case GiveUp(_) => PhaseMoveKeeps(c, x);
    case CancelSleep(_) => PhaseMoveKeeps(c, x);
    case DropWaiter(_) => PhaseMoveKeeps(c, x);
    case Relock(t) => RelockKeeps(c, t);
    case Return(t) => ReturnKeeps(c, t);
  }

  // ---- Runs ----

  ghost predicate CondSteps(cs: seq<Cond>, xs: seq<CondEvent>) {
    && |cs| == |xs| + 1
    && forall i :: 0 <= i < |xs| ==> May(cs[i], xs[i]) && cs[i + 1] == Step(cs[i], xs[i])
  }

  ghost predicate CondRun(cs: seq<Cond>, xs: seq<CondEvent>) {
    && CondSteps(cs, xs)
    && cs[0].lock == Init(cs[0].lock.cfg) && cs[0].room == Room([], map[]) && cs[0].phases == map[] && !cs[0].owed
  }

  lemma {:induction false} CondStepsInv(cs: seq<Cond>, xs: seq<CondEvent>, k: nat)
    requires CondSteps(cs, xs) && CondInv(cs[0]) && k < |cs|
    ensures CondInv(cs[k])
  {
    hide CondInv, Step, May;
    if k > 0 {
      CondStepsInv(cs, xs, k - 1);
      CondStep(cs[k - 1], xs[k - 1]);
    }
  }

  lemma CondRunInv(cs: seq<Cond>, xs: seq<CondEvent>, k: nat)
    requires CondRun(cs, xs) && k < |cs|
    ensures CondInv(cs[k])
  {
    hide Inv, Step, May;
    InitInv(cs[0].lock.cfg);
    CondStepsInv(cs, xs, k);
  }

  // Main result: when the predicate is true and nobody is writing, no wait_for caller has
  // an unsignalled waiter, whatever timed out or was cancelled on the way.
  lemma WaitForMissesNoUpdate(cs: seq<Cond>, xs: seq<CondEvent>, k: nat, t: ThreadId)
    requires CondRun(cs, xs) && k < |cs|
    requires cs[k].truth && !HasWriter(cs[k].lock)
    requires t in cs[k].phases && cs[k].phases[t].checked
    ensures !IsParked(cs[k].room, t)
    ensures t in cs[k].room.queue ==> t in cs[k].room.inside && cs[k].room.inside[t].status.Cancelling?
  {
    CondRunInv(cs, xs, k);
    assert Fits(cs[k], t);
  }

  // `wait` goes ahead exactly when the caller holds the lock once, in the waited mode.
  lemma WaitNeedsOneHold(c: Cond, t: ThreadId)
    requires CondInv(c) && May(c, Register(t))
    ensures t in Step(c, Register(t)).phases <==> StandingOf(c.lock, t) == OneHold(c.phases[t].mode)
  {
    hide Inv, IsOwned, OwnedDepth, StandingOf;
    assert Fits(c, t);
    CallerIsFree(c, t);
    ChecksMeanOneHold(c.lock, t, c.phases[t].mode);
  }

  // A sleeping caller has given the lock up completely.
  lemma SleepersHoldNothing(cs: seq<Cond>, xs: seq<CondEvent>, k: nat, t: ThreadId)
    requires CondRun(cs, xs) && k < |cs| && t in cs[k].phases && cs[k].phases[t].Asleep?
    ensures StandingOf(cs[k].lock, t) == NOTHING
  {
    CondRunInv(cs, xs, k);
    assert Fits(cs[k], t);
  }

  lemma ModeKept(c: Cond, x: CondEvent, t: ThreadId)
    requires CondInv(c) && May(c, x) && t in c.phases && t in Step(c, x).phases
    ensures Step(c, x).phases[t].mode == c.phases[t].mode
  {
    hide Inv, ReleaseSide, Exec, IsOwned, OwnedDepth;
  }

  lemma {:induction false} ModeConstant(cs: seq<Cond>, xs: seq<CondEvent>, i: nat, j: nat, t: ThreadId)
    requires CondRun(cs, xs) && i <= j < |cs| && forall k :: i <= k <= j ==> t in cs[k].phases
    ensures cs[j].phases[t].mode == cs[i].phases[t].mode
  {
    hide Step, May, CondInv;
    if i < j {
      ModeConstant(cs, xs, i, j - 1, t);
      CondRunInv(cs, xs, j - 1);
      assert cs[j - 1 + 1] == Step(cs[j - 1], xs[j - 1]);
      ModeKept(cs[j - 1], xs[j - 1], t);
    }
  }

  // Main result: a wait that registered at step i and returns at step j, notified, timed
  // out or cancelled any number of times, leaves the caller with exactly the one hold it
  // came with, and its waiter is gone.
  lemma WaitRoundTrip(cs: seq<Cond>, xs: seq<CondEvent>, i: nat, j: nat, t: ThreadId)
    requires CondRun(cs, xs) && i < j < |xs|
    requires xs[i] == Register(t) && xs[j] == Return(t)
    requires forall k :: i < k <= j ==> t in cs[k].phases
    ensures StandingOf(cs[i].lock, t) == OneHold(cs[i].phases[t].mode)
    ensures StandingOf(cs[j + 1].lock, t) == StandingOf(cs[i].lock, t)
    ensures t !in cs[j + 1].phases && t !in cs[j + 1].room.queue && t !in cs[j + 1].room.inside
  {
    CondRunInv(cs, xs, i);
    CondRunInv(cs, xs, j);
    assert cs[i + 1] == Step(cs[i], xs[i]) && cs[j + 1] == Step(cs[j], xs[j]);
    hide CondInv;
    WaitNeedsOneHold(cs[i], t);
    RegisterMode(cs[i], t);
    ModeConstant(cs, xs, i + 1, j, t);
    ReturnKeeps(cs[j], t);
    ReturnStanding(cs[j], t);
  }

  lemma RegisterMode(c: Cond, t: ThreadId)
    requires May(c, Register(t)) && t in Step(c, Register(t)).phases
    ensures Step(c, Register(t)).phases[t].mode == c.phases[t].mode
  {}

  lemma ReturnStanding(c: Cond, t: ThreadId)
    requires CondInv(c) && May(c, Return(t))
    ensures StandingOf(c.lock, t) == OneHold(c.phases[t].mode)
    ensures Step(c, Return(t)).lock == c.lock && t !in Step(c, Return(t)).phases
  {
    assert Fits(c, t);
  }
}
