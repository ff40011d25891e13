// What the strategies promise over whole runs.
module Schedules {
  import opened WaitQueues
  import opened LockModel
  import opened Ledger
  import opened Invariant
  import opened Preservation
  import opened Refinement

  predicate Holds(s: State, t: ThreadId) {
    t in s.readerOwners || Writer(s) == Some(t)
  }

  // A write grant by which the lock gets a writer.
  predicate OuterWriteGrant(s: State, e: Event)
    requires Enabled(s, e)
  {
    ActionOf(s, e).TakeWrite? && !HasWriter(s)
  }

  // What the read guard asks of a newcomer, or of a waiter with its ticket, without holds.
  predicate GateFor(s: State, e: Event)
    requires Enabled(s, e) && ActionOf(s, e).TakeRead?
  {
    match e
    case Arrive(_, _, _) =>
      s.write.waiting == 0 || s.cfg.strategy.ReaderPreferring? || (s.cfg.strategy.ReaderPhaseFair? && s.readersTurn)
    case _ => Inside(s, Read, e.t) && ReadGate(s, Ticket(s, Read, e.t))
  }

  // ---- Guards at the moment of a grant ----

  lemma RouseGuards(s: State, t: ThreadId, side: Side)
    requires Inv(s) && Inside(s, side, t)
    ensures CanAcquire(Rouse(s, t, side), t, side, true, Some(Ticket(s, side, t)))
         == CanAcquire(s, t, side, true, Some(Ticket(s, side, t)))
  {}

  lemma WriteGrantGuard(s: State, e: Event)
    requires Inv(s) && Enabled(s, e) && OuterWriteGrant(s, e)
    ensures WriteOpen(s)
  {
    ReadersFacts(s);
    match e
    case Arrive(t, side, blocking) =>
      if !CanAcquire(s, t, side, false, None) {
        EnterStillBlocked(s, t, side);
      }
    case Expire(t, side) => RouseGuards(s, t, side);
    case _ =>
  }

  lemma ReadGrantGuard(s: State, e: Event)
    requires Inv(s) && Enabled(s, e) && ActionOf(s, e).TakeRead? && !Holds(s, e.t)
    ensures !HasWriter(s) && GateFor(s, e)
  {
    ReadersFacts(s);
    match e
    case Arrive(t, side, blocking) =>
      if !CanAcquire(s, t, side, false, None) {
        EnterStillBlocked(s, t, side);
      }
    case Resume(t, side) => WaiterGuards(s, t);
    case Expire(t, side) =>
      RouseGuards(s, t, side);
      WaiterGuards(s, t);
    case _ =>
  }

  // ---- Exactly who is let in ----

  // What a read request without holds needs, beyond the lock having no writer.
  predicate NewcomerGate(s: State) {
    match s.cfg.strategy
    case WriterPreferring | StrictFair => s.write.waiting == 0
    case ReaderPreferring => true
    case ReaderPhaseFair => s.readersTurn || s.write.waiting == 0
  }

  predicate GoesStraightThrough(s: State, t: ThreadId, side: Side) {
    || (s.cfg.reentrant && Writer(s) == Some(t))
    || (side == Read && (t in s.readerOwners || (!HasWriter(s) && NewcomerGate(s))))
    || (side == Write && WriteOpen(s))
  }

  // A read request goes straight through for whoever already reads, and for the writer of a
  // reentrant variant; for others exactly if there is no writer and the strategy lets
  // newcomers in.  A write request goes straight through for the writer of a reentrant
  // variant, and for others exactly if the lock is open for writing.
  lemma GrantedExactlyWhen(s: State, t: ThreadId, side: Side, blocking: bool)
    requires Inv(s) && Free(s, t)
    ensures Exec(s, Arrive(t, side, blocking)).1 == Granted <==> GoesStraightThrough(s, t, side)
  {
    ReadersFacts(s);
    if !CanAcquire(s, t, side, false, None) && blocking && !(side == Write && UpgradeRefused(s, t)) {
      EnterStillBlocked(s, t, side);
    }
  }

  // An awake waiter is let in exactly if its side is open, its own ticket included, whether
  // it runs because of a signal or because its time is up.
  lemma WaiterGrantedExactlyWhen(s: State, e: Event)
    requires Inv(s) && Enabled(s, e) && (e.Resume? || e.Expire?)
    ensures Exec(s, e).1 == Granted <==> LetThrough(s, e.t, e.side)
  {
    RouseGuards(s, e.t, e.side);
    if Writer(s) != Some(e.t) {
      WaiterGuards(s, e.t);
    }
  }

  predicate LetThrough(s: State, t: ThreadId, side: Side)
    requires Inside(s, side, t)
  {
    if side == Read then !HasWriter(s) && ReadGate(s, Ticket(s, Read, t)) else WriteOpen(s)
  }

  // ---- Phases and writers ----

  // No outermost write is ever granted inside an open reader phase.
  lemma NoWriteInsidePhase(s: State, e: Event)
    requires Reachable(s) && Enabled(s, e) && OuterWriteGrant(s, e)
    ensures !s.readersTurn
  {
    ReachableInv(s);
    WriteGrantGuard(s, e);
  }

  // ---- The end of writing ----

  // The step takes the lock's writer away: the outermost write release, by the writer itself
  // or (plain) by anybody, or a downgrade by the writer.
  predicate EndsWriting(s: State, e: Event)
    requires Enabled(s, e)
  {
    && HasWriter(s) && View(s).depth == 1
    && match e
       case Release(t, Write) => !RoutesToRead(s, t, Write) && (s.cfg.reentrant ==> Writer(s) == Some(t))
       case Downgrade(t) => Writer(s) == Some(t)
       case _ => false
  }

  lemma WritingEndsExactlyWhen(s: State, e: Event)
    requires Inv(s) && Enabled(s, e) && HasWriter(s)
    ensures !HasWriter(Next(s, e)) <==> EndsWriting(s, e)
  {
    ReadersFacts(s);
    StepInv(s, e);
    StepRefines(s, e);
    ViewExclusive(s);
    ViewExclusive(Next(s, e));
    match e
    case Release(t, side) => ReleaseOutcome(s, t, side);
    case Downgrade(t) => DowngradeOutcome(s, t);
    case _ =>
  }

  // ---- Downgrade is atomic ----

  lemma ReaderKeepsWritersOut(s: State, e: Event, t: ThreadId)
    requires Inv(s) && Enabled(s, e) && t in s.readerOwners && !HasWriter(s)
    ensures !HasWriter(Next(s, e))
  {
    hide LedgerOK, PhaseOK, ReadersBlocked, WritersAwake, Exec;
    StepInv(s, e);
    StepRefines(s, e);
    ViewExclusive(s);
    ViewExclusive(Next(s, e));
  }

  lemma DowngradeEndsWriting(s: State, t: ThreadId)
    requires Inv(s) && Enabled(s, Downgrade(t)) && Exec(s, Downgrade(t)).1 == Done
    ensures !HasWriter(Next(s, Downgrade(t)))
  {
    StepInv(s, Downgrade(t));
    StepRefines(s, Downgrade(t));
    ViewExclusive(Next(s, Downgrade(t)));
  }

  // From a thread's downgrade until its read depth is back to zero, no write is granted to
  // anyone, under any strategy.
  lemma {:induction false} DowngradeIsAtomic(ss: seq<State>, es: seq<Event>, i: nat, j: nat, t: ThreadId)
    requires Run(ss, es) && Inv(ss[0]) && i < j < |ss|
    requires es[i] == Downgrade(t) && Exec(ss[i], es[i]).1 == Done
    requires forall k :: i < k < j ==> t in ss[k].readerOwners
    ensures forall k :: i < k <= j ==> !HasWriter(ss[k])
    ensures forall k :: i < k < j ==> !ActionOf(ss[k], es[k]).TakeWrite?
  {
    hide Inv, Exec, ActionOf;
    RunInv(ss, es, i);
    if j == i + 1 {
      DowngradeEndsWriting(ss[i], t);
    } else {
      DowngradeIsAtomic(ss, es, i, j - 1, t);
      RunInv(ss, es, j - 1);
      ReaderKeepsWritersOut(ss[j - 1], es[j - 1], t);
      NoGrantStep(ss[j - 1], es[j - 1]);
    }
  }

  lemma NoGrantStep(s: State, e: Event)
    requires Inv(s) && Enabled(s, e) && !HasWriter(Next(s, e))
    ensures !ActionOf(s, e).TakeWrite?
  {
    StepInv(s, e);
    StepRefines(s, e);
    ViewExclusive(Next(s, e));
  }

  // ---- Writer preference ----

  lemma WriterPreferenceStep(s: State, e: Event, t: ThreadId)
    requires Inv(s) && Enabled(s, e) && s.cfg.strategy.WriterPreferring?
    requires s.write.waiting > 0 && !OuterWriteGrant(s, e) && Holds(Next(s, e), t)
    ensures Holds(s, t)
  {
    if ActionOf(s, e).TakeRead? && !Holds(s, e.t) {
      ReadGrantGuard(s, e);
    }
    StepRefines(s, e);
    ViewExclusive(s);
  }

  // Over any stretch in which a writer waits and no write is granted, the set of threads
  // holding the lock in any mode only shrinks.
  lemma {:induction false} WriterPreference(ss: seq<State>, es: seq<Event>, j: nat, t: ThreadId)
    requires Run(ss, es) && Inv(ss[0]) && ss[0].cfg.strategy.WriterPreferring? && j < |ss|
    requires forall k :: 0 <= k < j ==> ss[k].write.waiting > 0 && !OuterWriteGrant(ss[k], es[k])
    requires Holds(ss[j], t)
    ensures forall k :: 0 <= k <= j ==> Holds(ss[k], t)
  {
    if j > 0 {
      RunInv(ss, es, j - 1);
      WriterPreferenceStep(ss[j - 1], es[j - 1], t);
      WriterPreference(ss, es, j - 1, t);
    }
  }

  // A writer-preferring downgrade lets the queued readers sleep on while a writer waits,
  // and wakes every one of them otherwise.
  lemma WriterPreferringDowngrade(s: State, t: ThreadId)
    requires Inv(s) && Enabled(s, Downgrade(t)) && Exec(s, Downgrade(t)).1 == Done
    requires s.cfg.strategy.WriterPreferring?
    ensures var s' := Next(s, Downgrade(t));
            && s'.write == s.write
            && (if s.write.waiting > 0 then s'.read == s.read else NoneParked(s'.read.room))
  {
    NotifyWakes(s.read.room, |s.read.room.queue|);
    ListedWaits(s.write);
    if s.read.room.queue == [] {
      EmptyQueue(s.read.room);
    }
  }
}
