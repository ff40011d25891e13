// The account of a step determines the state after it; what it says about the queues and
// about newcomers after a downgrade.
module Accounts {
  import opened WaitQueues
  import opened LockModel
  import opened Ledger
  import opened Invariant
  import opened Population
  import opened Preservation
  import opened Refinement
  import opened Seating
  import opened Marking
  import opened Schedules
  import opened Fairness
  import opened Causes
  import opened Handoffs

  // ---- The account determines the step ----

  // Everything the accounts of this and the other modules say about a step from s to s'.
  ghost predicate Accounted(s: State, e: Event, s': State)
    requires Enabled(s, e)
  {
    && s'.cfg == s.cfg && Inv(s')
    && View(s') == Do(View(s), ActionOf(s, e))
    && Marks(s') == MarksAfter(s, e)
    && Tickets(s', Read) == TicketsAfter(s, e, Read) && Tickets(s', Write) == TicketsAfter(s, e, Write)
    && FifoWake(OwnRoom(s, e, Read), ReadersWoken(s, e), s'.read.room)
    && FifoWake(OwnRoom(s, e, Write), WritersWoken(s, e), s'.write.room)
    && (s'.readersTurn, s'.cutoff) == PhaseAfter(s, e)
  }

  // Counters and writer fields follow from the rest.
  lemma SameAccount(a: State, b: State)
    requires Inv(a) && Inv(b) && a.cfg == b.cfg && View(a) == View(b) && Marks(a) == Marks(b)
    requires Tickets(a, Read) == Tickets(b, Read) && Tickets(a, Write) == Tickets(b, Write)
    requires a.read.room == b.read.room && a.write.room == b.write.room
    requires (a.readersTurn, a.cutoff) == (b.readersTurn, b.cutoff)
    ensures a == b
  {
    assert a.read == b.read && a.write == b.write;
    assert a.pending == b.pending;
  }

  // Main result: no field of the lock is left open by the account, and a step does nothing
  // the account does not say.
  lemma StepExactly(s: State, e: Event, s': State)
    requires Inv(s) && Enabled(s, e)
    ensures Accounted(s, e, s') <==> s' == Next(s, e)
    ensures Exec(s, e).1 == OutcomeOf(s, e)
  {
    hide Inv, Exec, ActionOf, MarksAfter, TicketsAfter, OwnRoom, ReadersWoken, WritersWoken, PhaseAfter, FifoWake;
    hide OutcomeOf, View, Do, May, Marks, Tickets;
    OutcomeExactly(s, e);
    StepInv(s, e);
    StepRefines(s, e);
    StepMarks(s, e);
    StepSeats(s, e, Read);
    StepSeats(s, e, Write);
    StepHands(s, e);
    if Accounted(s, e, s') {
      FifoWakeUnique(OwnRoom(s, e, Read), ReadersWoken(s, e), s'.read.room, Next(s, e).read.room);
      FifoWakeUnique(OwnRoom(s, e, Write), WritersWoken(s, e), s'.write.room, Next(s, e).write.room);
      SameAccount(s', Next(s, e));
    }
  }

  // ---- Queues ----

  // A step puts its own caller at the tail or takes it out where it stands; of the others it
  // takes a woken front and keeps the rest in order.
  lemma QueueAfter(s: State, e: Event, x: Side) returns (k: nat)
    requires Inv(s) && Enabled(s, e)
    ensures k <= |OwnRoom(s, e, x).queue| && ProxyOf(Next(s, e), x).room.queue == OwnRoom(s, e, x).queue[k..]
    ensures forall i :: 0 <= i < k ==> !IsParked(ProxyOf(Next(s, e), x).room, OwnRoom(s, e, x).queue[i])
    ensures (e.Expire? || e.Abort?) && e.side == x ==>
              CutOut(ProxyOf(s, x).room.queue, e.t, OwnRoom(s, e, x).queue)
  {
    StepHands(s, e);
    if (e.Expire? || e.Abort?) && e.side == x {
      QueueDistinct(s, x);
      DiscardCutsOut(ProxyOf(s, x).room.queue, e.t);
    }
    hide Inv, Exec, OwnRoom, ReadersWoken, WritersWoken, ShortestPrefix;
    var own, n := OwnRoom(s, e, x), if x == Read then ReadersWoken(s, e) else WritersWoken(s, e);
    k :| ShortestPrefix(own, n, k) && PrefixSignalled(own, k, ProxyOf(Next(s, e), x).room);
    WokenFront(own, k, ProxyOf(Next(s, e), x).room);
  }

  lemma QueueDistinct(s: State, x: Side)
    requires Inv(s)
    ensures Distinct(ProxyOf(s, x).room.queue)
  {}

  lemma WokenFront(r: Room, k: nat, r': Room)
    requires PrefixSignalled(r, k, r')
    ensures forall i :: 0 <= i < k ==> !IsParked(r', r.queue[i])
  {
    forall i | 0 <= i < k ensures !IsParked(r', r.queue[i]) {
      assert r.queue[i] in r.queue[..k];
    }
  }

  lemma OwnRoomOK(s: State, e: Event, x: Side)
    requires Inv(s) && Enabled(s, e)
    ensures RoomOK(OwnRoom(s, e, x))
  {
    var r := ProxyOf(s, x).room;
    RoomOf(s, x);
    OwnRoomCases(s, e, x);
    if OwnRoom(s, e, x) != r {
      var t := e.t;
      hide Inv, OwnRoom, RoomOK, Discard;
      TakeOutOK(r, t);
      if t in OwnRoom(s, e, x).inside {
        var w := OwnRoom(s, e, x).inside[t];
        if w.status.Parked? {
          AppendOK(r, t, w);
        } else {
          CancelledOK(r, t, w);
        }
      }
    }
  }

  lemma RoomOf(s: State, x: Side)
    requires Inv(s)
    ensures RoomOK(ProxyOf(s, x).room)
  {}

  // The caller goes to the tail, is cancelled, or is taken out.
  lemma OwnRoomCases(s: State, e: Event, x: Side)
    requires Enabled(s, e) && RoomOK(ProxyOf(s, x).room)
    ensures var r := ProxyOf(s, x).room; var own := OwnRoom(s, e, x);
            own != r ==>
              var t := e.t;
              if t in own.inside then
                && own.inside == r.inside[t := own.inside[t]]
                && if own.inside[t].status.Parked? then own.queue == r.queue + [t] && t !in r.queue
                   else own.inside[t].status.Cancelling? && own.queue == r.queue && t in r.inside
              else
                own.inside == r.inside - {t} &&
                (own.queue == Discard(r.queue, t) || (own.queue == r.queue && t !in r.queue))
  {
    hide OutcomeOf, Discard, Distinct;
  }

  // A caller that goes to sleep is the last of its queue, and asleep; nobody else moves.
  lemma SleepersGoLast(s: State, e: Event)
    requires Inv(s) && Enabled(s, e) && (e.Arrive? || e.Resume?) && Exec(s, e).1 == Waiting
    ensures var r := ProxyOf(s, e.side).room; var r' := ProxyOf(Next(s, e), e.side).room;
            && r'.queue == r.queue + [e.t] && IsParked(r', e.t)
            && r'.inside == r.inside[e.t := r'.inside[e.t]]
  {
    hide Inv, Exec, OwnRoom, OutcomeOf, FifoWake, RoomOK, ReadersWoken, WritersWoken, IsParked;
    OutcomeExactly(s, e);
    OwnRoomParks(s, e);
    StepHands(s, e);
    OwnRoomOK(s, e, e.side);
    WakeNobody(OwnRoom(s, e, e.side));
    FifoWakeUnique(OwnRoom(s, e, e.side), 0, OwnRoom(s, e, e.side), ProxyOf(Next(s, e), e.side).room);
  }

  lemma OwnRoomParks(s: State, e: Event)
    requires Enabled(s, e) && (e.Arrive? || e.Resume?) && OutcomeOf(s, e) == Waiting
    ensures var r := ProxyOf(s, e.side).room; var own := OwnRoom(s, e, e.side);
            && own.queue == r.queue + [e.t] && IsParked(own, e.t)
            && own.inside == r.inside[e.t := own.inside[e.t]]
    ensures ReadersWoken(s, e) == 0 && WritersWoken(s, e) == 0
  {
    assert CauseOf(s, e).Unrelated?;
  }

  // A step wakes at most one writer, and never one that stands behind a sleeping writer.
  lemma OneWriterWoken(s: State, e: Event, t: ThreadId, u: ThreadId)
    requires Inv(s) && Enabled(s, e) && t != u
    requires IsParked(OwnRoom(s, e, Write), t) && !IsParked(Next(s, e).write.room, t)
    requires IsParked(OwnRoom(s, e, Write), u)
    ensures IsParked(Next(s, e).write.room, u)
  {
    StepHands(s, e);
    OwnRoomOK(s, e, Write);
    OneAtMost(s, e);
    hide Inv, Exec, OwnRoom, WritersWoken, FifoWake, RoomOK;
    if !IsParked(Next(s, e).write.room, u) {
      WakeOneAtMost(OwnRoom(s, e, Write), WritersWoken(s, e), Next(s, e).write.room, t, u);
    }
  }

  lemma OneAtMost(s: State, e: Event)
    requires Enabled(s, e)
    ensures WritersWoken(s, e) <= 1
  {}

  // ---- After a downgrade ----

  // A downgrade lets readers in, newcomers included, whatever waits, if readers are preferred
  // or share phases; under the other two strategies newcomers only if no writer waits.
  lemma DowngradeAdmits(s: State, e: Event, p: ThreadId, blocking: bool)
    requires Inv(s) && Enabled(s, e) && e.Downgrade? && Exec(s, e).1 == Done
    requires Free(Next(s, e), p)
    ensures Exec(Next(s, e), Arrive(p, Read, blocking)).1 == Granted <==>
            || p in Next(s, e).readerOwners
            || s.cfg.strategy.ReaderPreferring? || s.cfg.strategy.ReaderPhaseFair?
            || s.write.room.inside == map[]
    ensures e.t in Next(s, e).readerOwners
    ensures p != e.t ==> (p in Next(s, e).readerOwners <==> p in s.readerOwners)
  {
    hide FifoWake;
    OutcomeExactly(s, e);
    DemotedNow(s, e);
    StepHands(s, e);
    StepRefines(s, e);
    StepInv(s, e);
    DowngradeKeepsWriters(s, e);
    GrantedExactlyWhen(Next(s, e), p, Read, blocking);
    ViewExclusive(Next(s, e));
    hide Inv, Exec, FifoWake, OwnRoom, CauseOf, ReadersWoken, WritersWoken, PhaseAfter;
  }

  lemma DowngradeKeepsWriters(s: State, e: Event)
    requires Inv(s) && Enabled(s, e) && e.Downgrade?
    ensures Next(s, e).write.waiting == 0 <==> s.write.room.inside == map[]
  {
    ListedWaits(s.write);
    hide Notify;
    assert Next(s, e).write == s.write;
  }

  lemma DemotedNow(s: State, e: Event)
    requires Enabled(s, e) && e.Downgrade? && OutcomeOf(s, e) == Done
    ensures s.cfg.strategy.ReaderPhaseFair? ==> PhaseAfter(s, e).0
  {}
}
