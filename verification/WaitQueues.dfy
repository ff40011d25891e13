// The FIFO wake queues of rwlocker/queues.py.
//
// A Room is what one lock proxy knows about the callers suspended inside its `acquire`:
// the deque of waiter objects, and for every caller inside the wait loop its ticket and
// the state of its waiter object.
module WaitQueues {
  type ThreadId = nat

  // Parked:     the waiter object is unsignalled and its caller sleeps on it.
  // Signalled:  the caller is awake inside the wait loop (just arrived, or its waiter was
  //             released or resolved) and has not yet looked at its guard again.
  // Cancelling: the future was cancelled, but the task has not run its `except` block yet.
  datatype Status = Parked | Signalled | Cancelling

  datatype Waiter = Waiter(ticket: nat, status: Status)

  datatype Room = Room(queue: seq<ThreadId>, inside: map<ThreadId, Waiter>)

  predicate IsParked(r: Room, t: ThreadId) {
    t in r.inside && r.inside[t].status.Parked?
  }

  // Some caller inside the loop is awake or about to abandon.
  ghost predicate SomeAwake(r: Room) {
    exists t :: t in r.inside && !IsParked(r, t)
  }

  ghost predicate NoneParked(r: Room) {
    forall t :: !IsParked(r, t)
  }

  ghost predicate Distinct(q: seq<ThreadId>) {
    forall i, j :: 0 <= i < j < |q| ==> q[i] != q[j]
  }

  // The queue lists distinct callers that are inside the loop, none of them awake, and
  // every parked caller is listed.
  ghost predicate RoomOK(r: Room) {
    && Distinct(r.queue)
    && (forall t :: t in r.queue ==> t in r.inside && !r.inside[t].status.Signalled?)
    && (forall t :: IsParked(r, t) ==> t in r.queue)
  }

  function Signal(r: Room, t: ThreadId): Room
    requires t in r.inside
  {
    r.(inside := r.inside[t := r.inside[t].(status := Signalled)])
  }

  // `_notify_unlocked`: pop from the left until n waiters were really woken.
  function Notify(r: Room, n: int): Room
    decreases |r.queue|
  {
    if r.queue == [] || n <= 0 then r
    else
      var w := r.queue[0];
      var rest := r.(queue := r.queue[1..]);
      if IsParked(r, w) then Notify(Signal(rest, w), n - 1) else Notify(rest, n)
  }

  function NotifyAll(r: Room): Room {
    Notify(r, |r.queue|)
  }

  // `_discard_waiter`: deque.remove, ignoring a waiter that is no longer listed.
  function Discard(q: seq<ThreadId>, t: ThreadId): seq<ThreadId> {
    if q == [] then [] else if q[0] == t then q[1..] else [q[0]] + Discard(q[1..], t)
  }

  // r' is r after some wakeups: nobody entered or left, tickets are kept, and the only
  // status change is from parked to signalled.
  ghost predicate Woken(r: Room, r': Room) {
    && r'.inside.Keys == r.inside.Keys
    && (forall t :: t in r.inside ==>
          && r'.inside[t].ticket == r.inside[t].ticket
          && (r'.inside[t] == r.inside[t] || (IsParked(r, t) && r'.inside[t].status == Signalled)))
  }

  lemma WokenTrans(a: Room, b: Room, c: Room)
    requires Woken(a, b) && Woken(b, c)
    ensures Woken(a, c)
  {}

  lemma {:induction false} NotifyWakes(r: Room, n: int)
    requires RoomOK(r)
    ensures RoomOK(Notify(r, n)) && Woken(r, Notify(r, n))
    ensures n >= 1 && r.inside != map[] ==> SomeAwake(Notify(r, n))
    ensures n >= |r.queue| ==> NoneParked(Notify(r, n))
    decreases |r.queue|
  {
    if r.queue == [] || n <= 0 {
      if r.inside != map[] && n >= 1 {
        var t :| t in r.inside;
        assert !IsParked(r, t);
      }
    } else {
      PopHeadOK(r);
      var w := r.queue[0];
      NotifyWakes(PopHead(r), if IsParked(r, w) then n - 1 else n);
      WokenTrans(r, PopHead(r), Notify(r, n));
      if IsParked(r, w) {
        assert w in Notify(r, n).inside && !IsParked(Notify(r, n), w);
      }
    }
  }

  // How many of the listed waiters a wakeup would still reach.
  function Live(r: Room, q: seq<ThreadId>): nat {
    if q == [] then 0 else (if IsParked(r, q[0]) then 1 else 0) + Live(r, q[1..])
  }

  // The first k entries are the shortest prefix holding n live waiters, or the whole queue
  // if there are fewer.
  ghost predicate ShortestPrefix(r: Room, n: nat, k: nat) {
    && k <= |r.queue|
    && Live(r, r.queue[..k]) == (if Live(r, r.queue) < n then Live(r, r.queue) else n)
    && (k < |r.queue| ==> Live(r, r.queue[..k]) == n)
    && (forall j :: 0 <= j < k ==> Live(r, r.queue[..j]) < n)
  }

  // The first k entries are gone, exactly the live ones among them are signalled, and the
  // rest of the queue keeps its order.
  ghost predicate PrefixSignalled(r: Room, k: nat, r': Room) {
    && k <= |r.queue|
    && r'.queue == r.queue[k..]
    && r'.inside.Keys == r.inside.Keys
    && (forall t :: t in r.inside ==>
          r'.inside[t] == if t in r.queue[..k] && IsParked(r, t)
                          then r.inside[t].(status := Signalled) else r.inside[t])
  }

  // Exact FIFO wakeup.
  ghost predicate FifoWake(r: Room, n: nat, r': Room) {
    exists k: nat :: ShortestPrefix(r, n, k) && PrefixSignalled(r, k, r')
  }

  lemma LiveBound(r: Room, q: seq<ThreadId>)
    ensures Live(r, q) <= |q|
  {}

  lemma {:induction false} LiveFrame(r: Room, r': Room, q: seq<ThreadId>)
    requires forall t :: t in q ==> IsParked(r, t) == IsParked(r', t)
    ensures Live(r, q) == Live(r', q)
  {
    if q != [] {
      assert q[0] in q;
      LiveFrame(r, r', q[1..]);
    }
  }

  // The room after the head of the queue has been popped and, if live, signalled.
  ghost function PopHead(r: Room): Room
    requires r.queue != []
  {
    var rest := r.(queue := r.queue[1..]);
    if IsParked(r, r.queue[0]) then Signal(rest, r.queue[0]) else rest
  }

  lemma PopHeadOK(r: Room)
    requires RoomOK(r) && r.queue != []
    ensures RoomOK(PopHead(r)) && Woken(r, PopHead(r))
    ensures r.queue[0] !in PopHead(r).queue
    ensures forall t :: t in r.queue <==> t == r.queue[0] || t in PopHead(r).queue
  {
    assert forall t :: t in r.queue <==> t == r.queue[0] || t in r.queue[1..];
  }

  lemma LivePrefix(r: Room, j: nat)
    requires RoomOK(r) && r.queue != [] && j < |r.queue|
    ensures Live(r, r.queue[..j + 1]) ==
            (if IsParked(r, r.queue[0]) then 1 else 0) + Live(PopHead(r), PopHead(r).queue[..j])
  {
    PopHeadOK(r);
    assert r.queue[..j + 1][1..] == PopHead(r).queue[..j];
    LiveFrame(r, PopHead(r), PopHead(r).queue[..j]);
  }

  lemma ShortestPrefixStep(r: Room, n: nat, k: nat)
    requires RoomOK(r) && r.queue != [] && n > 0
    requires ShortestPrefix(PopHead(r), if IsParked(r, r.queue[0]) then n - 1 else n, k)
    ensures ShortestPrefix(r, n, k + 1)
  {
    LivePrefix(r, k);
    LivePrefix(r, |r.queue| - 1);
    assert r.queue[..|r.queue|] == r.queue;
    assert PopHead(r).queue[..|r.queue| - 1] == PopHead(r).queue;
    forall j | 0 <= j < k + 1 ensures Live(r, r.queue[..j]) < n {
      if j > 0 {
        LivePrefix(r, j - 1);
      }
    }
  }

  lemma PrefixSignalledStep(r: Room, k: nat, r': Room)
    requires RoomOK(r) && r.queue != [] && PrefixSignalled(PopHead(r), k, r')
    ensures PrefixSignalled(r, k + 1, r')
  {
    PopHeadOK(r);
    assert r.queue[k + 1..] == PopHead(r).queue[k..];
    assert r.queue[..k + 1] == [r.queue[0]] + PopHead(r).queue[..k];
  }

  lemma {:induction false} NotifyIsFifo(r: Room, n: nat)
    requires RoomOK(r)
    ensures FifoWake(r, n, Notify(r, n))
    decreases |r.queue|
  {
    if r.queue == [] || n == 0 {
      assert r.queue[0..] == r.queue && r.queue[..0] == [];
      assert ShortestPrefix(r, n, 0) && PrefixSignalled(r, 0, r);
    } else {
      var m := if IsParked(r, r.queue[0]) then n - 1 else n;
      PopHeadOK(r);
      NotifyIsFifo(PopHead(r), m);
      var k: nat :| ShortestPrefix(PopHead(r), m, k) && PrefixSignalled(PopHead(r), k, Notify(PopHead(r), m));
      ShortestPrefixStep(r, n, k);
      PrefixSignalledStep(r, k, Notify(r, n));
    }
  }

  // ---- One caller moves ----

  lemma AppendOK(r: Room, t: ThreadId, w: Waiter)
    requires RoomOK(r) && t !in r.queue && w.status.Parked?
    ensures RoomOK(Room(r.queue + [t], r.inside[t := w]))
  {
    assert forall v :: v in r.queue + [t] <==> v in r.queue || v == t;
  }

  lemma TakeOutOK(r: Room, t: ThreadId)
    requires RoomOK(r)
    ensures RoomOK(Room(Discard(r.queue, t), r.inside - {t}))
    ensures t !in r.queue ==> RoomOK(Room(r.queue, r.inside - {t}))
  {
    DiscardRemoves(r.queue, t);
  }

  lemma CancelledOK(r: Room, t: ThreadId, w: Waiter)
    requires RoomOK(r) && t in r.inside && w.status.Cancelling?
    ensures RoomOK(Room(r.queue, r.inside[t := w]))
  {}

  // ---- Wakeups as a relation ----

  lemma WakeNobody(r: Room)
    requires RoomOK(r)
    ensures FifoWake(r, 0, r)
  {
    NotifyIsFifo(r, 0);
  }

  lemma WakeNobodyListed(r: Room, n: nat)
    requires RoomOK(r) && r.queue == []
    ensures FifoWake(r, n, r)
  {
    NotifyIsFifo(r, n);
  }

  // The relation determines the room after a wakeup.
  lemma FifoWakeUnique(r: Room, n: nat, a: Room, b: Room)
    requires FifoWake(r, n, a) && FifoWake(r, n, b)
    ensures a == b
  {
    var i: nat :| ShortestPrefix(r, n, i) && PrefixSignalled(r, i, a);
    var j: nat :| ShortestPrefix(r, n, j) && PrefixSignalled(r, j, b);
    hide ShortestPrefix, PrefixSignalled;
    PrefixUnique(r, n, i, j);
    SignalledUnique(r, i, a, b);
  }

  lemma PrefixUnique(r: Room, n: nat, i: nat, j: nat)
    requires ShortestPrefix(r, n, i) && ShortestPrefix(r, n, j)
    ensures i == j
  {
    hide Live;
  }

  lemma SignalledUnique(r: Room, k: nat, a: Room, b: Room)
    requires PrefixSignalled(r, k, a) && PrefixSignalled(r, k, b)
    ensures a == b
  {
    assert a.inside == b.inside;
  }

  // A caller that is not listed may leave before or after a wakeup of the others.
  lemma FifoWakeWithout(r: Room, n: nat, r': Room, t: ThreadId)
    requires FifoWake(r, n, r') && t !in r.queue
    ensures FifoWake(Room(r.queue, r.inside - {t}), n, Room(r'.queue, r'.inside - {t}))
  {
    var k: nat :| ShortestPrefix(r, n, k) && PrefixSignalled(r, k, r');
    PrefixWithout(r, n, k, t);
    SignalledWithout(r, k, r', t);
  }

  lemma PrefixWithout(r: Room, n: nat, k: nat, t: ThreadId)
    requires ShortestPrefix(r, n, k) && t !in r.queue
    ensures ShortestPrefix(Room(r.queue, r.inside - {t}), n, k)
  {
    var a := Room(r.queue, r.inside - {t});
    forall j | 0 <= j <= |r.queue| ensures Live(a, r.queue[..j]) == Live(r, r.queue[..j]) {
      LiveFrame(a, r, r.queue[..j]);
    }
    assert r.queue[..|r.queue|] == r.queue;
    hide Live;
  }

  lemma SignalledWithout(r: Room, k: nat, r': Room, t: ThreadId)
    requires PrefixSignalled(r, k, r')
    ensures PrefixSignalled(Room(r.queue, r.inside - {t}), k, Room(r'.queue, r'.inside - {t}))
  {}

  // No caller is woken before one that stands in front of it.
  lemma WakeRespectsOrder(r: Room, n: nat, r': Room, i: nat, j: nat)
    requires RoomOK(r) && FifoWake(r, n, r') && i < j < |r.queue|
    requires IsParked(r, r.queue[j]) && !IsParked(r', r.queue[j])
    ensures !IsParked(r', r.queue[i])
  {
    var k: nat :| ShortestPrefix(r, n, k) && PrefixSignalled(r, k, r');
    assert r.queue[j] in r.queue[..k];
    var m :| 0 <= m < k && r.queue[..k][m] == r.queue[j];
    assert m == j;
    assert r.queue[..k][i] == r.queue[i];
  }

  // A wakeup for at most one signals at most one.
  lemma WakeOneAtMost(r: Room, n: nat, r': Room, t: ThreadId, u: ThreadId)
    requires RoomOK(r) && FifoWake(r, n, r') && n <= 1
    requires IsParked(r, t) && !IsParked(r', t) && IsParked(r, u) && !IsParked(r', u)
    ensures t == u
  {
    var k: nat :| ShortestPrefix(r, n, k) && PrefixSignalled(r, k, r');
    if t != u {
      TwoLive(r, r.queue[..k], t, u);
    }
  }

  lemma {:induction false} TwoLive(r: Room, q: seq<ThreadId>, t: ThreadId, u: ThreadId)
    requires t in q && IsParked(r, t) && u in q && IsParked(r, u) && t != u
    ensures Live(r, q) >= 2
  {
    if q[0] == t {
      OneLive(r, q[1..], u);
    } else if q[0] == u {
      OneLive(r, q[1..], t);
    } else {
      TwoLive(r, q[1..], t, u);
    }
  }

  lemma {:induction false} OneLive(r: Room, q: seq<ThreadId>, t: ThreadId)
    requires t in q && IsParked(r, t)
    ensures Live(r, q) >= 1
  {
    if q[0] != t {
      OneLive(r, q[1..], t);
    }
  }

  lemma NotifyShrinks(r: Room, n: int)
    ensures forall t :: t in Notify(r, n).queue ==> t in r.queue
    decreases |r.queue|
  {}

  lemma NotifyAllEmpties(r: Room)
    requires RoomOK(r)
    ensures NotifyAll(r).queue == [] && NoneParked(NotifyAll(r))
  {
    NotifyWakes(r, |r.queue|);
    NotifyIsFifo(r, |r.queue|);
    hide Notify, RoomOK;
    var k: nat :| ShortestPrefix(r, |r.queue|, k) && PrefixSignalled(r, k, NotifyAll(r));
    LiveBound(r, r.queue[..k]);
    assert k == |r.queue|;
  }

  // Exactly the sleeping callers are signalled.
  lemma NotifyAllSignals(r: Room)
    requires RoomOK(r)
    ensures NotifyAll(r).inside.Keys == r.inside.Keys
    ensures forall t :: t in r.inside ==>
              NotifyAll(r).inside[t] == if IsParked(r, t) then r.inside[t].(status := Signalled) else r.inside[t]
  {
    NotifyWakes(r, |r.queue|);
    hide Notify, RoomOK;
    forall t | t in r.inside
      ensures NotifyAll(r).inside[t] == if IsParked(r, t) then r.inside[t].(status := Signalled) else r.inside[t]
    {
      assert !IsParked(NotifyAll(r), t);
    }
  }

  lemma {:induction false} DiscardRemoves(q: seq<ThreadId>, t: ThreadId)
    requires Distinct(q)
    ensures Distinct(Discard(q, t))
    ensures forall u :: u in Discard(q, t) <==> u in q && u != t
  {
    if q != [] && q[0] != t {
      DiscardRemoves(q[1..], t);
      assert forall u :: u in q <==> u == q[0] || u in q[1..];
      assert q[0] !in q[1..];
      assert q[0] !in Discard(q[1..], t);
    } else if q != [] {
      assert forall u :: u in q <==> u == q[0] || u in q[1..];
    }
  }

  // t's entry is gone, if there was one, and the others keep their order.
  ghost predicate CutOut(q: seq<ThreadId>, t: ThreadId, q': seq<ThreadId>) {
    if t in q then exists i :: 0 <= i < |q| && q[i] == t && q' == q[..i] + q[i + 1..]
    else q' == q
  }

  lemma DiscardCutsOut(q: seq<ThreadId>, t: ThreadId)
    requires Distinct(q)
    ensures CutOut(q, t, Discard(q, t))
  {
    if t in q {
      var i :| 0 <= i < |q| && q[i] == t;
      DiscardKeepsOrder(q, t, i);
    } else {
      DiscardOfAbsent(q, t);
    }
  }

  lemma {:induction false} DiscardKeepsOrder(q: seq<ThreadId>, t: ThreadId, i: nat)
    requires Distinct(q) && i < |q| && q[i] == t
    ensures Discard(q, t) == q[..i] + q[i + 1..]
  {
    if i > 0 {
      assert q[0] != q[i];
      DiscardKeepsOrder(q[1..], t, i - 1);
      assert q[..i] == [q[0]] + q[1..][..i - 1] && q[1..][i..] == q[i + 1..];
    }
  }

  lemma {:induction false} DiscardOfAbsent(q: seq<ThreadId>, t: ThreadId)
    requires t !in q
    ensures Discard(q, t) == q
  {
    if q != [] {
      assert q[0] in q;
      DiscardOfAbsent(q[1..], t);
    }
  }

  // WakeQueueBase with the waiter objects of ThreadWaitQueue / AsyncWaitQueue.
  class WakeQueue {
    var waiters: seq<ThreadId>
    var slots: map<ThreadId, Waiter>

    ghost function View(): Room
      reads this
    {
      Room(waiters, slots)
    }

    constructor ()
      ensures View() == Room([], map[])
    {
      waiters, slots := [], map[];
    }

    method HasWaiters() returns (b: bool)
      ensures b == (waiters != [])
    {
      b := waiters != [];
    }

    // `_wake_waiter`: releasing an unsignalled waiter succeeds; a finished one is skipped.
    method WakeWaiter(w: ThreadId) returns (woken: bool)
      modifies this`slots
      ensures woken == old(IsParked(View(), w))
      ensures View() == if woken then old(Signal(View(), w)) else old(View())
    {
      if w in slots && slots[w].status.Parked? {
        slots := slots[w := slots[w].(status := Signalled)];
        return true;
      }
      return false;
    }

    method NotifyUnlocked(n: int)
      requires RoomOK(View())
      modifies this
      ensures View() == old(Notify(View(), n))
      ensures FifoWake(old(View()), if n < 0 then 0 else n, View())
    {
      ghost var start := View();
      var left := n;
      while waiters != [] && left > 0
        invariant Notify(View(), left) == Notify(start, n)
        decreases |waiters|
      {
        var w := waiters[0];
        waiters := waiters[1..];
        var woken := WakeWaiter(w);
        if woken {
          left := left - 1;
        }
      }
      NotifyIsFifo(start, if n < 0 then 0 else n);
    }

    method NotifyAllUnlocked()
      requires RoomOK(View())
      modifies this
      ensures View() == old(NotifyAll(View()))
      ensures waiters == [] && slots.Keys == old(slots).Keys
      ensures forall t :: t in slots ==>
                slots[t] == if old(IsParked(View(), t)) then old(slots)[t].(status := Signalled) else old(slots)[t]
      ensures NoneParked(View())
    {
      NotifyAllEmpties(View());
      NotifyAllSignals(View());
      NotifyUnlocked(|waiters|);
    }

    method DiscardWaiter(t: ThreadId)
      requires RoomOK(View())
      modifies this`waiters
      ensures waiters == Discard(old(waiters), t)
      ensures forall u :: u in waiters <==> u in old(waiters) && u != t
      ensures CutOut(old(waiters), t, waiters)
    {
      var i := 0;
      ghost var q := waiters;
      while i < |waiters| && waiters[i] != t
        invariant 0 <= i <= |waiters| && waiters == q
        invariant t !in q[..i]
      {
        assert q[..i + 1] == q[..i] + [q[i]];
        i := i + 1;
      }
      DiscardRemoves(q, t);
      if i < |waiters| {
        DiscardKeepsOrder(q, t, i);
        waiters := waiters[..i] + waiters[i + 1..];
      } else {
        assert q[..i] == q;
        DiscardOfAbsent(q, t);
      }
    }

    // A caller takes its ticket and runs into the loop.
    method Enter(t: ThreadId, ticket: nat)
      requires RoomOK(View()) && t !in slots
      modifies this`slots
      ensures View() == old(View()).(inside := old(slots)[t := Waiter(ticket, Signalled)])
      ensures RoomOK(View())
    {
      slots := slots[t := Waiter(ticket, Signalled)];
    }

    // `wait`: append a fresh unsignalled waiter object and go to sleep on it.
    method Wait(t: ThreadId)
      requires RoomOK(View()) && t in slots && slots[t].status.Signalled?
      modifies this
      ensures View() == Room(old(waiters) + [t], old(slots)[t := old(slots)[t].(status := Parked)])
      ensures RoomOK(View())
    {
      waiters := waiters + [t];
      slots := slots[t := slots[t].(status := Parked)];
      assert forall u :: u in waiters <==> u == t || u in old(waiters);
    }

    // The wait ends without a notification: the waiter is discarded and its caller runs.
    method Rouse(t: ThreadId)
      requires RoomOK(View()) && t in slots
      modifies this
      ensures View() == Room(Discard(old(waiters), t), old(slots)[t := old(slots)[t].(status := Signalled)])
      ensures RoomOK(View())
    {
      DiscardRemoves(waiters, t);
      DiscardWaiter(t);
      slots := slots[t := slots[t].(status := Signalled)];
    }

    // Cancelling the task cancels the future it waits on; the queue is not touched.
    method Cancel(t: ThreadId)
      requires RoomOK(View()) && t in slots
      modifies this`slots
      ensures View() == old(View()).(inside := old(slots)[t := old(slots)[t].(status := Cancelling)])
      ensures RoomOK(View())
    {
      slots := slots[t := slots[t].(status := Cancelling)];
    }

    method Exit(t: ThreadId)
      requires RoomOK(View()) && t in slots && slots[t].status.Signalled?
      modifies this`slots
      ensures View() == old(View()).(inside := old(slots) - {t})
      ensures RoomOK(View())
    {
      slots := slots - {t};
    }

    // The waiter object of a caller that returned is garbage.
    method Forget(t: ThreadId)
      modifies this`slots
      ensures View() == old(View()).(inside := old(slots) - {t})
    {
      slots := slots - {t};
    }
  }
}
