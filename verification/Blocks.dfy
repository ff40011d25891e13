// Programs made of nested `with lock.read` / `with lock.write` blocks, with downgrades and
// exception unwinding, run by any number of threads on a reentrant variant.
module Blocks {
  import opened WaitQueues
  import opened LockModel
  import opened Ledger
  import opened Invariant
  import opened Preservation
  import opened Marking
  import opened Refinement
  import opened Seating

  // ---- Block programs ----

  // The lock and, per thread, the blocks it is inside of, innermost last.
  datatype World = World(lock: State, stacks: map<ThreadId, seq<Side>>)

  datatype BlockEvent =
    | Begin(t: ThreadId, side: Side)  // `__enter__`
    | Carry(e: Event)                 // a suspended `__enter__` goes on, or is given up
    | End(t: ThreadId)                // `__exit__` of the innermost block
    | ToRead(t: ThreadId)             // `lock.write.downgrade()`, anywhere

  function Stack(w: World, t: ThreadId): seq<Side> {
    if t in w.stacks then w.stacks[t] else []
  }

  predicate MayHappen(w: World, b: BlockEvent) {
    match b
    case Begin(t, side) => Free(w.lock, t)
    case Carry(e) => Enabled(w.lock, e) && (e.Resume? || e.Expire? || e.Cancel? || e.Abort? || e.ResetMarker?)
    case End(t) => Free(w.lock, t) && Stack(w, t) != []
    case ToRead(t) => Free(w.lock, t)
  }

  function LockEvent(w: World, b: BlockEvent): Event
    requires MayHappen(w, b)
  {
    match b
    case Begin(t, side) => Arrive(t, side, true)
    case Carry(e) => e
    case End(t) => Release(t, Stack(w, t)[|Stack(w, t)| - 1])
    case ToRead(t) => Downgrade(t)
  }

  // A granted `__enter__` opens a block; `__exit__` closes one whether or not it raises.
  function Happen(w: World, b: BlockEvent): World
    requires MayHappen(w, b)
  {
    var e := LockEvent(w, b);
    var lock' := Next(w.lock, e);
    if Exec(w.lock, e).1 == Granted then World(lock', w.stacks[e.t := Stack(w, e.t) + [e.side]])
    else if b.End? then World(lock', w.stacks[b.t := Stack(w, b.t)[..|Stack(w, b.t)| - 1]])
    else World(lock', w.stacks)
  }

  function CountOf(st: seq<Side>, side: Side): nat {
    if st == [] then 0
    else CountOf(st[..|st| - 1], side) + (if st[|st| - 1] == side then 1 else 0)
  }

  // 1 if t has a downgraded write block.
  function Demoted(s: State, t: ThreadId): int {
    if s.marker == Some(t) then 1 else 0
  }

  // The holds of a thread are its blocks, one write block counting as a read after a
  // downgrade.
  ghost predicate Matches(s: State, t: ThreadId, st: seq<Side>) {
    && WriteDepth(s, t) == CountOf(st, Write) - Demoted(s, t)
    && ReadDepth(s, t) == CountOf(st, Read) + Demoted(s, t)
  }

  ghost predicate BlockInv(w: World) {
    && Inv(w.lock) && w.lock.cfg.reentrant
    && (HasWriter(w.lock) ==> w.lock.marker == None)
    && forall t :: Matches(w.lock, t, Stack(w, t))
  }

  lemma PushCount(st: seq<Side>, side: Side, x: Side)
    ensures CountOf(st + [side], x) == CountOf(st, x) + (if x == side then 1 else 0)
  {
    assert (st + [side])[..|st|] == st;
  }

  lemma {:induction false} SideCount(st: seq<Side>)
    ensures |st| == CountOf(st, Read) + CountOf(st, Write)
  {
    if st != [] {
      SideCount(st[..|st| - 1]);
    }
  }

  lemma {:induction false} NoneOf(st: seq<Side>, x: Side)
    requires x !in st
    ensures CountOf(st, x) == 0
  {
    if st != [] {
      NoneOf(st[..|st| - 1], x);
    }
  }

  // A marker belongs to a thread that still reads, so the lock has no writer.
  lemma MarkerMeansReader(w: World, t: ThreadId)
    requires BlockInv(w) && w.lock.marker == Some(t)
    ensures t in w.lock.readerOwners && !HasWriter(w.lock)
  {
    assert Matches(w.lock, t, Stack(w, t));
  }

  lemma LockStep(w: World, e: Event)
    requires BlockInv(w) && Enabled(w.lock, e)
    ensures Inv(Next(w.lock, e))
    ensures May(View(w.lock), ActionOf(w.lock, e))
    ensures View(Next(w.lock, e)) == Do(View(w.lock), ActionOf(w.lock, e))
    ensures Marks(Next(w.lock, e)) == MarksAfter(w.lock, e)
    ensures Exclusive(View(w.lock)) && Exclusive(View(Next(w.lock, e)))
  {
    StepInv(w.lock, e);
    StepRefines(w.lock, e);
    StepMarks(w.lock, e);
    ViewExclusive(w.lock);
    ViewExclusive(Next(w.lock, e));
  }

  // A write grant finds no marker.
  lemma WriteGrantUnmarked(w: World, e: Event)
    requires BlockInv(w) && Enabled(w.lock, e) && ActionOf(w.lock, e).TakeWrite?
    ensures w.lock.marker == None
  {
    LockStep(w, e);
    if w.lock.marker.Some? {
      MarkerMeansReader(w, w.lock.marker.value);
    }
  }

  lemma GrantFacts(w: World, e: Event)
    requires BlockInv(w) && Enabled(w.lock, e) && Exec(w.lock, e).1 == Granted
    ensures e.Arrive? || e.Resume? || e.Expire?
    ensures ActionOf(w.lock, e) == Take(e.side, e.t) && Next(w.lock, e).cfg == w.lock.cfg
    ensures Next(w.lock, e).marker == w.lock.marker || (e.side == Write && Next(w.lock, e).marker == None)
    ensures e.side == Write ==> w.lock.marker == None
    ensures e.side == Read && HasWriter(Next(w.lock, e)) ==> HasWriter(w.lock)
  {
    hide PhaseOK, ReadersBlocked, WritersAwake, ArriveStep, LoopTurn, ExpireStep, ReleaseSide, Abandon, DowngradeCore;
    LockStep(w, e);
    if e.side == Write {
      WriteGrantUnmarked(w, e);
    }
  }

  lemma GrantMatches(w: World, b: BlockEvent, t: ThreadId)
    requires BlockInv(w) && MayHappen(w, b) && Exec(w.lock, LockEvent(w, b)).1 == Granted
    ensures Matches(Happen(w, b).lock, t, Stack(Happen(w, b), t))
    ensures HasWriter(Happen(w, b).lock) ==> Happen(w, b).lock.marker == None
  {
    hide Inv, Exec, ActionOf, MarksAfter, May, Do, View, HasWriter, Matches;
    var e := LockEvent(w, b);
    LockStep(w, e);
    GrantFacts(w, e);
    DepthsAfter(w.lock, Next(w.lock, e), ActionOf(w.lock, e), t);
    PushMatches(w.lock, Next(w.lock, e), e.side, e.t, t, Stack(w, t));
  }

  // A new block on a thread's stack matches one more hold of that thread.
  lemma PushMatches(s: State, s': State, side: Side, owner: ThreadId, t: ThreadId, st: seq<Side>)
    requires Matches(s, t, st) && Demoted(s', t) == Demoted(s, t)
    requires WriteDepth(s', t) == WriteDepth(s, t) + (if t == owner && side == Write then 1 else 0)
    requires ReadDepth(s', t) == ReadDepth(s, t) + (if t == owner && side == Read then 1 else 0)
    ensures Matches(s', t, if t == owner then st + [side] else st)
  {
    hide WriteDepth, ReadDepth;
    PushCount(st, side, Read);
    PushCount(st, side, Write);
  }

  // The innermost block is the side that is held now: leaving it never raises.
  lemma EndRoutes(w: World, t: ThreadId)
    requires BlockInv(w) && MayHappen(w, End(t))
    ensures var e := LockEvent(w, End(t));
            && Exec(w.lock, e).1 == Done
            && ActionOf(w.lock, e) ==
                 if e.side == Write && w.lock.marker != Some(t) then DropWrite(t) else DropRead(t)
  {
    var st := Stack(w, t);
    assert Matches(w.lock, t, st);
    ReadersFacts(w.lock);
    assert CountOf(st, st[|st| - 1]) >= 1;
  }

  lemma EndFacts(w: World, t: ThreadId)
    requires BlockInv(w) && MayHappen(w, End(t))
    ensures var e := LockEvent(w, End(t)); var s' := Next(w.lock, e);
            && s'.cfg == w.lock.cfg
            && s'.marker == (if e.side == Write && w.lock.marker == Some(t) then None else w.lock.marker)
            && (HasWriter(s') ==> HasWriter(w.lock))
            && (ActionOf(w.lock, e).DropWrite? ==> Writer(w.lock) == Some(t))
  {
    hide PhaseOK, ReadersBlocked, WritersAwake, ReleaseSide;
    LockStep(w, LockEvent(w, End(t)));
    EndRoutes(w, t);
  }

  lemma EndMatches(w: World, t: ThreadId, u: ThreadId)
    requires BlockInv(w) && MayHappen(w, End(t))
    ensures Matches(Happen(w, End(t)).lock, u, Stack(Happen(w, End(t)), u))
    ensures HasWriter(Happen(w, End(t)).lock) ==> Happen(w, End(t)).lock.marker == None
  {
    hide Inv, Exec, ActionOf, MarksAfter, May, Do, View, WriteDepth, ReadDepth, HasWriter;
    var e := LockEvent(w, End(t));
    LockStep(w, e);
    EndRoutes(w, t);
    EndFacts(w, t);
    DepthsAfter(w.lock, Next(w.lock, e), ActionOf(w.lock, e), u);
    assert Matches(w.lock, u, Stack(w, u));
  }

  lemma ToReadMatches(w: World, t: ThreadId, u: ThreadId)
    requires BlockInv(w) && MayHappen(w, ToRead(t))
    ensures Matches(Happen(w, ToRead(t)).lock, u, Stack(Happen(w, ToRead(t)), u))
    ensures HasWriter(Happen(w, ToRead(t)).lock) ==> Happen(w, ToRead(t)).lock.marker == None
  {
    hide Inv, DowngradeCore;
    LockStep(w, Downgrade(t));
    DepthsAfter(w.lock, Next(w.lock, Downgrade(t)), ActionOf(w.lock, Downgrade(t)), u);
    assert Matches(w.lock, u, Stack(w, u)) && Matches(w.lock, t, Stack(w, t));
  }

  lemma CarryMatches(w: World, b: BlockEvent, u: ThreadId)
    requires BlockInv(w) && MayHappen(w, b) && (b.Begin? || b.Carry?)
    requires Exec(w.lock, LockEvent(w, b)).1 != Granted
    ensures Matches(Happen(w, b).lock, u, Stack(Happen(w, b), u))
    ensures HasWriter(Happen(w, b).lock) ==> Happen(w, b).lock.marker == None
  {
    var e := LockEvent(w, b);
    if e.ResetMarker? {
      ResetMeansWriter(w.lock, e);
    }
    CarryStutters(w.lock, e);
    hide Inv, Exec, ActionOf, MarksAfter, May, Do, View, HasWriter, Matches;
    LockStep(w, e);
    assert View(Next(w.lock, e)) == View(w.lock) && Next(w.lock, e).marker == w.lock.marker;
    SameViewMatches(w.lock, Next(w.lock, e), u, Stack(w, u));
  }

  lemma SameViewMatches(s: State, s': State, u: ThreadId, st: seq<Side>)
    requires Matches(s, u, st) && View(s') == View(s) && s'.marker == s.marker
    ensures Matches(s', u, st) && HasWriter(s') == HasWriter(s)
  {
    hide CountOf;
    assert Writer(s') == Writer(s) && s'.readerOwners == s.readerOwners;
  }

  lemma CarryStutters(s: State, e: Event)
    requires Enabled(s, e) && !e.Release? && !e.Downgrade? && Exec(s, e).1 != Granted
    ensures ActionOf(s, e) == Stutter && Do(View(s), Stutter) == View(s)
    ensures !e.ResetMarker? ==> MarksAfter(s, e).0 == s.marker
    ensures e.ResetMarker? ==> MarksAfter(s, e).0 == None
  {
    hide ArriveStep, LoopTurn, ExpireStep, Abandon;
  }

  lemma ResetMeansWriter(s: State, e: Event)
    requires Inv(s) && Enabled(s, e) && e.ResetMarker? && s.cfg.reentrant
    ensures HasWriter(s)
  {}

  lemma BlockStep(w: World, b: BlockEvent)
    requires BlockInv(w) && MayHappen(w, b)
    ensures BlockInv(Happen(w, b))
  {
    hide Inv, Matches, HasWriter, ArriveStep, LoopTurn, ExpireStep, ReleaseSide, Abandon, DowngradeCore;
    var w' := Happen(w, b);
    LockStep(w, LockEvent(w, b));
    forall u ensures Matches(w'.lock, u, Stack(w', u)) {
      BlockStepMatches(w, b, u);
    }
    BlockStepMatches(w, b, 0);
  }

  lemma BlockStepMatches(w: World, b: BlockEvent, u: ThreadId)
    requires BlockInv(w) && MayHappen(w, b)
    ensures Matches(Happen(w, b).lock, u, Stack(Happen(w, b), u))
    ensures HasWriter(Happen(w, b).lock) ==> Happen(w, b).lock.marker == None
  {
    hide Inv, Exec, Matches, HasWriter;
    if Exec(w.lock, LockEvent(w, b)).1 == Granted {
      GrantMatches(w, b, u);
    } else {
      match b
      case Begin(_, _) => CarryMatches(w, b, u);
      case Carry(_) => CarryMatches(w, b, u);
      case End(t) => EndMatches(w, t, u);
      case ToRead(t) => ToReadMatches(w, t, u);
    }
  }

  // ---- Main results ----

  ghost predicate BlockSteps(ws: seq<World>, bs: seq<BlockEvent>) {
    && |ws| == |bs| + 1
    && forall i :: 0 <= i < |bs| ==> MayHappen(ws[i], bs[i]) && ws[i + 1] == Happen(ws[i], bs[i])
  }

  ghost predicate BlockRun(ws: seq<World>, bs: seq<BlockEvent>) {
    && BlockSteps(ws, bs)
    && ws[0].lock == Init(ws[0].lock.cfg) && ws[0].lock.cfg.reentrant && ws[0].stacks == map[]
  }

  lemma {:induction false} BlockStepsInv(ws: seq<World>, bs: seq<BlockEvent>, k: nat)
    requires BlockSteps(ws, bs) && BlockInv(ws[0]) && k < |ws|
    ensures BlockInv(ws[k])
  {
    hide BlockInv, MayHappen, Happen;
    if k > 0 {
      BlockStepsInv(ws, bs, k - 1);
      BlockStep(ws[k - 1], bs[k - 1]);
    }
  }

  lemma BlockRunInv(ws: seq<World>, bs: seq<BlockEvent>, k: nat)
    requires BlockRun(ws, bs) && k < |ws|
    ensures BlockInv(ws[k])
  {
    InitInv(ws[0].lock.cfg);
    BlockStepsInv(ws, bs, k);
  }

  // Every block exit succeeds and is routed to the side the thread holds at that moment.
  lemma EveryExitSucceeds(ws: seq<World>, bs: seq<BlockEvent>, k: nat)
    requires BlockRun(ws, bs) && k < |bs| && bs[k].End?
    ensures var e := LockEvent(ws[k], bs[k]);
            && Exec(ws[k].lock, e).1 == Done
            && ActionOf(ws[k].lock, e) ==
                 if e.side == Write && ws[k].lock.marker != Some(bs[k].t) then DropWrite(bs[k].t)
                 else DropRead(bs[k].t)
  {
    BlockRunInv(ws, bs, k);
    EndRoutes(ws[k], bs[k].t);
  }

  // Whenever a thread is back at the same blocks, it holds the lock as often as before, and
  // on the same sides unless the open write block has been downgraded in between.
  lemma ExitRestoresHolds(ws: seq<World>, bs: seq<BlockEvent>, i: nat, j: nat, t: ThreadId)
    requires BlockRun(ws, bs) && i < |ws| && j < |ws| && Stack(ws[i], t) == Stack(ws[j], t)
    ensures WriteDepth(ws[j].lock, t) + ReadDepth(ws[j].lock, t) == |Stack(ws[i], t)|
    ensures WriteDepth(ws[j].lock, t) - WriteDepth(ws[i].lock, t) ==
            Demoted(ws[i].lock, t) - Demoted(ws[j].lock, t)
    ensures Write !in Stack(ws[i], t) ==>
              && WriteDepth(ws[j].lock, t) == WriteDepth(ws[i].lock, t) == 0
              && ReadDepth(ws[j].lock, t) == ReadDepth(ws[i].lock, t)
  {
    BlockRunInv(ws, bs, i);
    BlockRunInv(ws, bs, j);
    hide Inv, Happen;
    assert Matches(ws[i].lock, t, Stack(ws[i], t)) && Matches(ws[j].lock, t, Stack(ws[j], t));
    SideCount(Stack(ws[i], t));
    if Write !in Stack(ws[i], t) {
      NoneOf(Stack(ws[i], t), Write);
    }
    ViewExclusive(ws[i].lock);
    ViewExclusive(ws[j].lock);
  }

  // The marker stays the downgrader's until its own write block ends.
  lemma MarkerStays(w: World, b: BlockEvent, t: ThreadId)
    requires BlockInv(w) && MayHappen(w, b) && w.lock.marker == Some(t)
    requires !(b == End(t) && LockEvent(w, b).side == Write)
    ensures Happen(w, b).lock.marker == Some(t)
  {
    hide PhaseOK, ReadersBlocked, WritersAwake, ArriveStep, LoopTurn, ExpireStep, ReleaseSide, Abandon, DowngradeCore;
    var e := LockEvent(w, b);
    MarkerMeansReader(w, t);
    LockStep(w, e);
    if ActionOf(w.lock, e).TakeWrite? {
      WriteGrantUnmarked(w, e);
    }
  }

  // ---- Unwinding ----

  function Actor(b: BlockEvent): ThreadId {
    match b case Begin(t, _) => t case Carry(e) => e.t case End(t) => t case ToRead(t) => t
  }

  // A thread that is free stays free when it releases, and whatever the others do.
  lemma FreeStays(s: State, e: Event, t: ThreadId)
    requires Inv(s) && Enabled(s, e) && Free(s, t) && (e.t == t ==> e.Release?)
    ensures Free(Next(s, e), t)
  {
    assert t !in Seats(s, Read) && t !in Seats(s, Write);
    hide Inv, Exec, SeatsAfter, MarksAfter;
    ReleaseEnds(s, e);
    NoNewSeat(s, e, t, Read);
    NoNewSeat(s, e, t, Write);
    NoNewMark(s, e, t);
    StepSeats(s, e, Read);
    StepSeats(s, e, Write);
    StepMarks(s, e);
    assert t !in Seats(Next(s, e), Read) && t !in Seats(Next(s, e), Write);
  }

  lemma ReleaseEnds(s: State, e: Event)
    requires Enabled(s, e)
    ensures e.Release? ==> Exec(s, e).1 in {Done, Raised}
  {}

  lemma NoNewSeat(s: State, e: Event, t: ThreadId, x: Side)
    requires Enabled(s, e) && t !in Seats(s, x) && (e.t == t ==> e.Release?)
    ensures t !in SeatsAfter(s, e, x)
  {
    hide Exec, Seats;
  }

  lemma NoNewMark(s: State, e: Event, t: ThreadId)
    requires Enabled(s, e) && t !in s.clearing && (e.t == t ==> Exec(s, e).1 in {Done, Raised})
    ensures t !in MarksAfter(s, e).1
  {
    hide Exec;
  }

  lemma StaysFree(w: World, b: BlockEvent, t: ThreadId)
    requires BlockInv(w) && MayHappen(w, b) && Free(w.lock, t) && (Actor(b) == t ==> b == End(t))
    ensures Free(Happen(w, b).lock, t)
  {
    hide Inv, Exec, Free;
    FreeStays(w.lock, LockEvent(w, b), t);
  }

  // Only a thread's own steps change its blocks.
  lemma OthersKeepStack(w: World, b: BlockEvent, t: ThreadId)
    requires MayHappen(w, b) && Actor(b) != t
    ensures Stack(Happen(w, b), t) == Stack(w, t)
  {
    hide Exec;
  }

  // The exits of t among the first k steps.
  ghost function Exits(bs: seq<BlockEvent>, t: ThreadId, k: nat): nat
    requires k <= |bs|
  {
    if k == 0 then 0 else Exits(bs, t, k - 1) + (if bs[k - 1] == End(t) then 1 else 0)
  }

  lemma {:induction false} UnwindingInv(ws: seq<World>, bs: seq<BlockEvent>, t: ThreadId, k: nat)
    requires BlockSteps(ws, bs) && BlockInv(ws[0]) && Free(ws[0].lock, t) && k < |ws|
    requires forall i :: 0 <= i < |bs| && Actor(bs[i]) == t ==> bs[i] == End(t)
    ensures BlockInv(ws[k]) && Free(ws[k].lock, t)
    ensures Exits(bs, t, k) <= |Stack(ws[0], t)|
    ensures Stack(ws[k], t) == Stack(ws[0], t)[..|Stack(ws[0], t)| - Exits(bs, t, k)]
  {
    hide BlockInv, Free, Happen, MayHappen;
    if k > 0 {
      UnwindingInv(ws, bs, t, k - 1);
      BlockStepsInv(ws, bs, k);
      StaysFree(ws[k - 1], bs[k - 1], t);
      if bs[k - 1] == End(t) {
        EndNeedsBlock(ws[k - 1], t);
        EndPops(ws[k - 1], t);
      } else {
        OthersKeepStack(ws[k - 1], bs[k - 1], t);
      }
    }
  }

  lemma EndNeedsBlock(w: World, t: ThreadId)
    requires MayHappen(w, End(t))
    ensures Stack(w, t) != []
  {}

  // An exception unwinds the blocks of a thread while all others go on: however their steps
  // fall in between, the next exit is always possible and never raises, every exit closes
  // the innermost block left, and once no block is left the thread holds nothing.
  lemma UnwindingIsClean(ws: seq<World>, bs: seq<BlockEvent>, t: ThreadId, k: nat)
    requires BlockSteps(ws, bs) && BlockInv(ws[0]) && Free(ws[0].lock, t) && k < |ws|
    requires forall i :: 0 <= i < |bs| && Actor(bs[i]) == t ==> bs[i] == End(t)
    ensures Exits(bs, t, k) <= |Stack(ws[0], t)|
    ensures Stack(ws[k], t) == Stack(ws[0], t)[..|Stack(ws[0], t)| - Exits(bs, t, k)]
    ensures if Stack(ws[k], t) == [] then HoldsNothing(ws[k], t) else ExitSucceeds(ws[k], t)
  {
    hide BlockInv, Free, Happen, MayHappen, HoldsNothing, ExitSucceeds;
    UnwindingInv(ws, bs, t, k);
    ExitOrNothing(ws[k], t);
  }

  // The innermost block can be left now, and leaving it does not raise.
  predicate ExitSucceeds(w: World, t: ThreadId) {
    MayHappen(w, End(t)) && Exec(w.lock, LockEvent(w, End(t))).1 == Done
  }

  predicate HoldsNothing(w: World, t: ThreadId) {
    WriteDepth(w.lock, t) == 0 && ReadDepth(w.lock, t) == 0
  }

  lemma ExitOrNothing(w: World, t: ThreadId)
    requires BlockInv(w) && Free(w.lock, t)
    ensures if Stack(w, t) == [] then HoldsNothing(w, t) else ExitSucceeds(w, t)
  {
    if Stack(w, t) != [] {
      EndRoutes(w, t);
    } else {
      assert Matches(w.lock, t, []);
      hide Inv;
      ViewExclusiveDepth(w.lock, t);
    }
  }

  lemma EndPops(w: World, t: ThreadId)
    requires BlockInv(w) && MayHappen(w, End(t))
    ensures Stack(Happen(w, End(t)), t) == Stack(w, t)[..|Stack(w, t)| - 1]
  {
    EndRoutes(w, t);
  }

  lemma ViewExclusiveDepth(s: State, t: ThreadId)
    requires Inv(s)
    ensures WriteDepth(s, t) >= 0 && ReadDepth(s, t) >= 0
  {}
}
