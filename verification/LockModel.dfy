// The lock state machines of rwlocker/mixins.py and the acquire/release/downgrade steps of
// the proxies in rwlocker/thread_rwlock.py and rwlocker/async_rwlock.py, as functions on
// snapshots of the lock.  One Exec step is one critical section: the code between two
// acquisitions of the mutex (threads) or between two awaits (tasks).
module LockModel {
  import opened WaitQueues

  datatype Option<+T> = None | Some(value: T)

  datatype Strategy = WriterPreferring | ReaderPreferring | ReaderPhaseFair | StrictFair

  datatype Runtime = Threads | Tasks

  datatype Config = Config(strategy: Strategy, reentrant: bool, runtime: Runtime)

  datatype Side = Read | Write

  // `those_waiting`, `_waiter_seq` and the wait queue of one proxy.
  datatype Proxy = Proxy(waiting: int, tickets: nat, room: Room)

  // The fields of a lock object.  Plain variants use writerActive/writerOwner, reentrant
  // ones writerId/writeCount; `marker` is the writer proxy's downgrade marker, and
  // `clearing` the threads that were granted write but have not reset the marker yet,
  // which the thread proxy does after it left the mutex.
  datatype State = State(
    cfg: Config,
    writerActive: bool,
    writerOwner: Option<ThreadId>,
    writerId: Option<ThreadId>,
    writeCount: int,
    readersActive: int,
    readerOwners: map<ThreadId, int>,
    readersTurn: bool,
    cutoff: int,
    pending: int,
    read: Proxy,
    write: Proxy,
    marker: Option<ThreadId>,
    clearing: set<ThreadId>)

  function NewProxy(): Proxy {
    Proxy(0, 0, Room([], map[]))
  }

  function Init(cfg: Config): State {
    State(cfg, false, None, None, 0, 0, map[], false, 0, 0, NewProxy(), NewProxy(), None, {})
  }

  // ---- Ownership ----

  predicate IsCurrentReader(s: State, t: ThreadId) {
    t in s.readerOwners && s.readerOwners[t] > 0
  }

  predicate IsCurrentWriter(s: State, t: ThreadId) {
    if s.cfg.reentrant then s.writerId == Some(t) else s.writerOwner == Some(t)
  }

  function Writer(s: State): Option<ThreadId> {
    if s.cfg.reentrant then s.writerId else if s.writerActive then s.writerOwner else None
  }

  predicate HasWriter(s: State) {
    if s.cfg.reentrant then s.writerId.Some? else s.writerActive
  }

  function ReadDepth(s: State, t: ThreadId): int {
    if t in s.readerOwners then s.readerOwners[t] else 0
  }

  function RecordReaderAcquire(s: State, t: ThreadId): (s': State)
    ensures s'.cfg == s.cfg
  {
    s.(readersActive := s.readersActive + 1,
       readerOwners := s.readerOwners[t := ReadDepth(s, t) + 1])
  }

  // ---- Reader phases (the two fair strategies) ----

  function WakeWaitingReader(s: State): (s': State)
    ensures s'.cfg == s.cfg
  {
    if s.cfg.strategy.StrictFair? then
      if s.writerActive || s.pending <= 0 || s.read.waiting <= 0 || s.read.room.queue == [] then s
      else
        var count := if s.read.waiting < s.pending then s.read.waiting else s.pending;
        s.(read := s.read.(room := Notify(s.read.room, count)))
    else if !s.writerActive && s.read.waiting > 0 && s.read.room.queue != [] then WakeReaders(s)
    else s
  }

  function WakeReaders(s: State): (s': State)
    ensures s'.cfg == s.cfg
  {
    s.(read := s.read.(room := NotifyAll(s.read.room)))
  }

  function WakeWriter(s: State): (s': State)
    ensures s'.cfg == s.cfg
  {
    s.(write := s.write.(room := Notify(s.write.room, 1)))
  }

  function StartReaderPhase(s: State): (s': State)
    ensures s'.cfg == s.cfg
  {
    if s.cfg.strategy.StrictFair? then
      var phase := s.(readersTurn := s.read.waiting > 0, pending := s.read.waiting, cutoff := s.read.tickets);
      if phase.readersTurn then WakeWaitingReader(phase) else phase
    else WakeWaitingReader(s.(readersTurn := true))
  }

  predicate PhaseBusy(s: State) {
    s.readersTurn && (if s.cfg.strategy.StrictFair? then s.pending > 0 else s.read.waiting > 0)
  }

  function FinishOrContinue(s: State): (s': State)
    ensures s'.cfg == s.cfg
  {
    if PhaseBusy(s) then WakeWaitingReader(s)
    else
      var closed := if s.cfg.strategy.StrictFair? then s.(readersTurn := false, cutoff := 0, pending := 0)
                    else s.(readersTurn := false);
      if closed.write.waiting > 0 && closed.write.room.queue != [] then WakeWriter(closed) else closed
  }

  predicate IsReserved(s: State, waiting: bool, ticket: Option<nat>) {
    && s.readersTurn && waiting && ticket.Some?
    && ticket.value <= s.cutoff && s.pending > 0
  }

  // ---- Read side ----

  predicate CanRead(s: State, t: ThreadId, waiting: bool, ticket: Option<nat>) {
    if s.cfg.reentrant && s.writerId.Some? then IsCurrentWriter(s, t)
    else if !s.cfg.reentrant && s.writerActive then false
    else match s.cfg.strategy
      case WriterPreferring => s.write.waiting == 0 || (s.readersActive > 0 && IsCurrentReader(s, t))
      case ReaderPreferring => true
      case ReaderPhaseFair =>
        s.readersTurn || s.write.waiting == 0 || (s.readersActive > 0 && IsCurrentReader(s, t))
      case StrictFair =>
        || s.write.waiting == 0
        || (s.readersTurn && IsReserved(s, waiting, ticket))
        || (s.readersActive > 0 && IsCurrentReader(s, t))
  }

  function AcquireReadCore(s: State, t: ThreadId, waiting: bool, ticket: Option<nat>): (s': State)
    ensures s'.cfg == s.cfg
  {
    match s.cfg.strategy
    case WriterPreferring | ReaderPreferring => RecordReaderAcquire(s, t)
    case ReaderPhaseFair =>
      var held := RecordReaderAcquire(s, t);
      if held.readersTurn && held.read.waiting > 0 then WakeWaitingReader(held) else held
    case StrictFair =>
      var slot := if IsReserved(s, waiting, ticket) then s.(pending := s.pending - 1) else s;
      var held := RecordReaderAcquire(slot, t);
      if held.readersTurn && held.pending > 0 then WakeWaitingReader(held) else held
  }

  // None where the source raises RuntimeError.
  function ReleaseReadCore(s: State, t: ThreadId): (r: Option<State>)
    ensures r.Some? ==> r.value.cfg == s.cfg
  {
    if ReadDepth(s, t) == 0 then None
    else
      var owners := if ReadDepth(s, t) == 1 then s.readerOwners - {t}
                    else s.readerOwners[t := ReadDepth(s, t) - 1];
      var freed := s.(readerOwners := owners, readersActive := s.readersActive - 1);
      Some(AfterLastReader(freed))
  }

  function AfterLastReader(s: State): (s': State)
    ensures s'.cfg == s.cfg
  {
    if s.readersActive != 0 then s
    else match s.cfg.strategy
      case WriterPreferring | ReaderPreferring =>
        if s.write.room.queue != [] then WakeWriter(s) else s
      case ReaderPhaseFair | StrictFair => FinishOrContinue(s)
  }

  function OnReaderAbort(s: State, ticket: nat): (s': State)
    ensures s'.cfg == s.cfg
  {
    match s.cfg.strategy
    case WriterPreferring => s
    case ReaderPreferring =>
      if s.read.waiting == 0 && s.readersActive == 0 && s.write.room.queue != [] then WakeWriter(s) else s
    case ReaderPhaseFair =>
      if s.readersTurn && s.readersActive == 0 then FinishOrContinue(s) else s
    case StrictFair =>
      var slot := if s.readersTurn && ticket <= s.cutoff && s.pending > 0
                  then s.(pending := s.pending - 1) else s;
      if slot.readersTurn && slot.pending > 0 then WakeWaitingReader(slot)
      else if slot.readersTurn && slot.readersActive == 0 then FinishOrContinue(slot)
      else slot
  }

  // ---- Write side ----

  predicate CanWrite(s: State, t: ThreadId) {
    if s.cfg.reentrant && s.writerId.Some? then IsCurrentWriter(s, t)
    else if (!s.cfg.reentrant && s.writerActive) || s.readersActive > 0 then false
    else match s.cfg.strategy
      case WriterPreferring => s.readersActive == 0
      case ReaderPreferring => s.readersActive == 0 && s.read.waiting == 0
      case ReaderPhaseFair | StrictFair => !PhaseBusy(s)
  }

  function AcquireWriteCore(s: State, t: ThreadId): (s': State)
    ensures s'.cfg == s.cfg
  {
    if s.cfg.reentrant then s.(writerId := Some(t), writeCount := s.writeCount + 1)
    else s.(writerActive := true, writerOwner := Some(t))
  }

  function ReleaseWriteCore(s: State, t: ThreadId): (r: Option<State>)
    ensures r.Some? ==> r.value.cfg == s.cfg
  {
    if s.cfg.reentrant then
      if !IsCurrentWriter(s, t) then None
      else if s.writeCount - 1 == 0 then Some(OnWriterAbort(s.(writeCount := 0, writerId := None)))
      else Some(s.(writeCount := s.writeCount - 1))
    else if !s.writerActive then None
    else Some(OnWriterAbort(s.(writerActive := false, writerOwner := None)))
  }

  function OnWriterAbort(s: State): (s': State)
    ensures s'.cfg == s.cfg
  {
    match s.cfg.strategy
    case WriterPreferring =>
      if s.write.waiting > 0 && s.write.room.queue != [] then WakeWriter(s)
      else if s.read.room.queue != [] then WakeReaders(s)
      else s
    case ReaderPreferring =>
      if s.read.waiting > 0 && s.read.room.queue != [] then WakeReaders(s)
      else if s.write.room.queue != [] then WakeWriter(s)
      else s
    case ReaderPhaseFair | StrictFair =>
      if s.read.waiting > 0 && s.read.room.queue != [] then StartReaderPhase(s)
      else if s.write.room.queue != [] then WakeWriter(s)
      else s
  }

  function DowngradeCore(s: State, t: ThreadId): (r: Option<State>)
    ensures r.Some? ==> r.value.cfg == s.cfg
  {
    if !IsCurrentWriter(s, t) || (s.cfg.reentrant && s.writeCount > 1) || (!s.cfg.reentrant && !s.writerActive)
    then None
    else
      var freed := if s.cfg.reentrant then s.(writerId := None, writeCount := 0)
                   else s.(writerActive := false, writerOwner := None);
      Some(AfterDowngrade(RecordReaderAcquire(freed, t)))
  }

  function AfterDowngrade(s: State): (s': State)
    ensures s'.cfg == s.cfg
  {
    match s.cfg.strategy
    case WriterPreferring =>
      if s.write.waiting == 0 && s.read.room.queue != [] then WakeReaders(s) else s
    case ReaderPreferring =>
      if s.read.room.queue != [] then WakeReaders(s) else s
    case ReaderPhaseFair | StrictFair => StartReaderPhase(s)
  }

  // ---- The proxies ----

  function ProxyOf(s: State, side: Side): Proxy {
    match side case Read => s.read case Write => s.write
  }

  function WithProxy(s: State, side: Side, p: Proxy): (s': State)
    ensures s'.cfg == s.cfg
  {
    match side case Read => s.(read := p) case Write => s.(write := p)
  }

  predicate Inside(s: State, side: Side, t: ThreadId) {
    t in ProxyOf(s, side).room.inside
  }

  predicate Waits(s: State, t: ThreadId) {
    t in s.read.room.inside || t in s.write.room.inside
  }

  // The caller is not in the middle of an acquire.
  predicate Free(s: State, t: ThreadId) {
    !Waits(s, t) && t !in s.clearing
  }

  // `_check_write_acquire_allowed`: raises on a read-to-write upgrade.
  predicate UpgradeRefused(s: State, t: ThreadId) {
    s.readersActive > 0 && IsCurrentReader(s, t) && !IsCurrentWriter(s, t)
  }

  predicate CanAcquire(s: State, t: ThreadId, side: Side, waiting: bool, ticket: Option<nat>) {
    match side
    case Read => CanRead(s, t, waiting, ticket)
    case Write => CanWrite(s, t)
  }

  function AcquireCore(s: State, t: ThreadId, side: Side, waiting: bool, ticket: Option<nat>): (s': State)
    ensures s'.cfg == s.cfg
  {
    match side
    case Read => AcquireReadCore(s, t, waiting, ticket)
    case Write => AcquireWriteCore(s, t)
  }

  function OnAbort(s: State, side: Side, ticket: nat): (s': State)
    ensures s'.cfg == s.cfg
  {
    match side
    case Read => OnReaderAbort(s, ticket)
    case Write => OnWriterAbort(s)
  }

  // The writer proxy resets the marker after a grant: at once for tasks, in a later step
  // for threads.
  function AfterGrant(s: State, t: ThreadId, side: Side): (s': State)
    ensures s'.cfg == s.cfg
  {
    if side == Read then s
    else if s.cfg.runtime.Tasks? then s.(marker := None)
    else s.(clearing := s.clearing + {t})
  }

  function EnterRoom(p: Proxy, t: ThreadId): Proxy {
    Proxy(p.waiting + 1, p.tickets + 1,
          p.room.(inside := p.room.inside[t := Waiter(p.tickets + 1, Signalled)]))
  }

  function LeaveRoom(p: Proxy, t: ThreadId): Proxy {
    p.(waiting := p.waiting - 1, room := p.room.(inside := p.room.inside - {t}))
  }

  function ParkIn(p: Proxy, t: ThreadId): Proxy
    requires t in p.room.inside
  {
    p.(room := Room(p.room.queue + [t], p.room.inside[t := p.room.inside[t].(status := Parked)]))
  }

  // The waiter leaves the queue, if it is still there, and its caller is awake again.
  function WakeUp(p: Proxy, t: ThreadId): Proxy
    requires t in p.room.inside
  {
    p.(room := Room(Discard(p.room.queue, t), p.room.inside[t := p.room.inside[t].(status := Signalled)]))
  }

  function Ticket(s: State, side: Side, t: ThreadId): nat
    requires Inside(s, side, t)
  {
    ProxyOf(s, side).room.inside[t].ticket
  }

  function StatusOf(s: State, side: Side, t: ThreadId): Status
    requires Inside(s, side, t)
  {
    ProxyOf(s, side).room.inside[t].status
  }

  function Enter(s: State, t: ThreadId, side: Side): (s': State)
    ensures s'.cfg == s.cfg
  {
    WithProxy(s, side, EnterRoom(ProxyOf(s, side), t))
  }

  function Leave(s: State, t: ThreadId, side: Side): (s': State)
    ensures s'.cfg == s.cfg
  {
    WithProxy(s, side, LeaveRoom(ProxyOf(s, side), t))
  }

  function Park(s: State, t: ThreadId, side: Side): (s': State)
    requires Inside(s, side, t)
    ensures s'.cfg == s.cfg
  {
    WithProxy(s, side, ParkIn(ProxyOf(s, side), t))
  }

  function Rouse(s: State, t: ThreadId, side: Side): (s': State)
    requires Inside(s, side, t)
    ensures s'.cfg == s.cfg
  {
    WithProxy(s, side, WakeUp(ProxyOf(s, side), t))
  }

  // The grant of a caller inside the loop; `those_waiting` drops only in the `finally` block.
  function GrantWaiting(s: State, t: ThreadId, side: Side): (s': State)
    requires Inside(s, side, t)
    ensures s'.cfg == s.cfg
  {
    AfterGrant(Leave(AcquireCore(s, t, side, true, Some(Ticket(s, side, t))), t, side), t, side)
  }

  function Abandon(s: State, t: ThreadId, side: Side): (s': State)
    requires Inside(s, side, t)
    ensures s'.cfg == s.cfg
  {
    OnAbort(Leave(s, t, side), side, Ticket(s, side, t))
  }

  // One turn of `while not can_acquire: wait()` by an awake caller.
  function LoopTurn(s: State, t: ThreadId, side: Side): (s': State)
    requires Inside(s, side, t)
    ensures s'.cfg == s.cfg
  {
    if CanAcquire(s, t, side, true, Some(Ticket(s, side, t))) then GrantWaiting(s, t, side)
    else Park(s, t, side)
  }

  // The writer proxy routes the release of a downgraded hold to the read side.
  function ReleaseSide(s: State, t: ThreadId, side: Side): (r: (State, bool))
    ensures r.0.cfg == s.cfg
  {
    match side
    case Read =>
      (match ReleaseReadCore(s, t) case Some(s') => (s', true) case None => (s, false))
    case Write =>
      if s.marker == Some(t) then
        var unmarked := s.(marker := None);
        match ReleaseReadCore(unmarked, t)
        case Some(s') => (s', true)
        case None =>
          (match ReleaseWriteCore(unmarked, t) case Some(s') => (s', true) case None => (unmarked, false))
      else
        match ReleaseWriteCore(s, t) case Some(s') => (s', true) case None => (s, false)
  }

  // ---- Steps ----

  datatype Event =
    | Arrive(t: ThreadId, side: Side, blocking: bool)  // acquire, up to its first park
    | Resume(t: ThreadId, side: Side)                  // a signalled waiter runs
    | Expire(t: ThreadId, side: Side)                  // threads: the timeout elapsed
    | Cancel(t: ThreadId, side: Side)                  // tasks: the future is cancelled
    | Abort(t: ThreadId, side: Side)                   // the wait ends with an exception
    | ResetMarker(t: ThreadId)                         // threads: after a write grant
    | Release(t: ThreadId, side: Side)
    | Downgrade(t: ThreadId)

  predicate Enabled(s: State, e: Event) {
    match e
    case Arrive(t, side, blocking) => Free(s, t)
    case Resume(t, side) => Inside(s, side, t) && StatusOf(s, side, t).Signalled?
    case Expire(t, side) => s.cfg.runtime.Threads? && Inside(s, side, t) && !StatusOf(s, side, t).Cancelling?
    case Cancel(t, side) => s.cfg.runtime.Tasks? && Inside(s, side, t) && !StatusOf(s, side, t).Cancelling?
    case Abort(t, side) =>
      Inside(s, side, t) && (s.cfg.runtime.Tasks? ==> StatusOf(s, side, t).Cancelling?)
    case ResetMarker(t) => t in s.clearing
    case Release(t, side) => Free(s, t)
    case Downgrade(t) => Free(s, t)
  }

  datatype Outcome = Granted | Refused | Raised | Waiting | Abandoned | Done

  function ArriveStep(s: State, t: ThreadId, side: Side, blocking: bool): (r: (State, Outcome))
    ensures r.0.cfg == s.cfg
  {
    if side == Write && UpgradeRefused(s, t) then (s, Raised)
    else if CanAcquire(s, t, side, false, None) then
      (AfterGrant(AcquireCore(s, t, side, false, None), t, side), Granted)
    else if !blocking then (s, Refused)
    else
      var entered := Enter(s, t, side);
      (LoopTurn(entered, t, side), LoopOutcome(entered, t, side))
  }

  function LoopOutcome(s: State, t: ThreadId, side: Side): Outcome
    requires Inside(s, side, t)
  {
    if CanAcquire(s, t, side, true, Some(Ticket(s, side, t))) then Granted else Waiting
  }

  // A timed-out thread first leaves the queue, then looks at its guard once more.
  function ExpireStep(s: State, t: ThreadId, side: Side): (r: (State, Outcome))
    requires Inside(s, side, t)
    ensures r.0.cfg == s.cfg
  {
    var awake := Rouse(s, t, side);
    if CanAcquire(awake, t, side, true, Some(Ticket(awake, side, t)))
    then (GrantWaiting(awake, t, side), Granted)
    else (Abandon(awake, t, side), Abandoned)
  }

  function CancelStep(s: State, t: ThreadId, side: Side): (s': State)
    requires Inside(s, side, t)
    ensures s'.cfg == s.cfg
  {
    var p := ProxyOf(s, side);
    WithProxy(s, side, p.(room := p.room.(inside := p.room.inside[t := p.room.inside[t].(status := Cancelling)])))
  }

  function Exec(s: State, e: Event): (r: (State, Outcome))
    requires Enabled(s, e)
    ensures r.0.cfg == s.cfg
  {
    match e
    case Arrive(t, side, blocking) => ArriveStep(s, t, side, blocking)
    case Resume(t, side) => (LoopTurn(s, t, side), LoopOutcome(s, t, side))
    case Expire(t, side) => ExpireStep(s, t, side)
    case Cancel(t, side) => (CancelStep(s, t, side), Waiting)
    case Abort(t, side) => (Abandon(Rouse(s, t, side), t, side), Abandoned)
    case ResetMarker(t) => (s.(marker := None, clearing := s.clearing - {t}), Done)
    case Release(t, side) =>
      var (s', ok) := ReleaseSide(s, t, side);
      (s', if ok then Done else Raised)
    case Downgrade(t) =>
      match DowngradeCore(s, t)
      case Some(s') => (s'.(marker := Some(t)), Done)
      case None => (s, Raised)
  }

  function Next(s: State, e: Event): (s': State)
    requires Enabled(s, e)
    ensures s'.cfg == s.cfg
  {
    Exec(s, e).0
  }
}
