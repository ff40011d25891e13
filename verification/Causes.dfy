// What one step of the lock does, told by its cause: an account that does not follow the
// calls of the mixins.
module Causes {
  import opened WaitQueues
  import opened LockModel
  import opened Ledger
  import opened Invariant
  import opened Population
  import opened Preservation
  import opened Refinement
  import opened Seating
  import opened Marking
  import opened Schedules
  import opened Fairness

  // ---- The outcome ----

  predicate ReleaseSucceeds(s: State, t: ThreadId, side: Side) {
    || (t in s.readerOwners && (side == Read || s.marker == Some(t)))
    || (side == Write && if s.cfg.reentrant then Writer(s) == Some(t) else HasWriter(s))
  }

  function OutcomeOf(s: State, e: Event): Outcome
    requires Enabled(s, e)
  {
    match e
    case Arrive(t, side, blocking) =>
      if side == Write && t in s.readerOwners && Writer(s) != Some(t) then Raised
      else if GoesStraightThrough(s, t, side) then Granted
      else if blocking then Waiting else Refused
    case Resume(t, side) => if LetThrough(s, t, side) then Granted else Waiting
    case Expire(t, side) => if LetThrough(s, t, side) then Granted else Abandoned
    case Cancel(_, _) => Waiting
    case Abort(_, _) => Abandoned
    case ResetMarker(_) => Done
    case Release(t, side) => if ReleaseSucceeds(s, t, side) then Done else Raised
    case Downgrade(t) => if Writer(s) == Some(t) && View(s).depth == 1 then Done else Raised
  }

  lemma OutcomeExactly(s: State, e: Event)
    requires Inv(s) && Enabled(s, e)
    ensures Exec(s, e).1 == OutcomeOf(s, e)
  {
    hide Inv, ArriveStep, LoopTurn, ExpireStep, ReleaseSide, Abandon, DowngradeCore, LetThrough, WriteOpen;
    match e
    case Arrive(t, side, blocking) =>
      ArriveOutcome(s, t, side, blocking);
      GrantedExactlyWhen(s, t, side, blocking);
    case Resume(_, _) => WaiterGrantedExactlyWhen(s, e);
      WaiterOutcomes(s, e);
    case Expire(_, _) => WaiterGrantedExactlyWhen(s, e);
      WaiterOutcomes(s, e);
    case Release(t, side) => ReleaseOutcome(s, t, side);
    case Downgrade(t) => DowngradeOutcome(s, t);
    case _ =>
  }

  lemma WaiterOutcomes(s: State, e: Event)
    requires Enabled(s, e)
    ensures e.Resume? ==> Exec(s, e).1 in {Granted, Waiting}
    ensures e.Expire? ==> Exec(s, e).1 in {Granted, Abandoned}
  {}

  // ---- The caller's own place ----

  // The room of one side with nothing changed but the place of the caller of the step: it
  // goes to sleep at the tail, is cancelled where it is, or is gone.
  function OwnRoom(s: State, e: Event, x: Side): Room
    requires Enabled(s, e)
  {
    var r := ProxyOf(s, x).room;
    match e
    case Arrive(t, side, _) =>
      if side == x && OutcomeOf(s, e) == Waiting
      then Room(r.queue + [t], r.inside[t := Waiter(ProxyOf(s, x).tickets + 1, Parked)]) else r
    case Resume(t, side) =>
      if side != x then r
      else if OutcomeOf(s, e) == Waiting
      then Room(r.queue + [t], r.inside[t := Waiter(Ticket(s, x, t), Parked)])
      else Room(r.queue, r.inside - {t})
    case Cancel(t, side) =>
      if side == x then Room(r.queue, r.inside[t := Waiter(Ticket(s, x, t), Cancelling)]) else r
    case Expire(t, side) => if side == x then Room(Discard(r.queue, t), r.inside - {t}) else r
    case Abort(t, side) => if side == x then Room(Discard(r.queue, t), r.inside - {t}) else r
    case _ => r
  }

  // ---- Causes ----

  datatype Cause =
    | Unrelated
    | ReadGranted
    | LastReadEnded      // the last read hold was released
    | ReaderGaveUp
    | WriteEnded         // the last write hold was released
    | WriterGaveUp
    | Demoted

  function CauseOf(s: State, e: Event): Cause
    requires Enabled(s, e)
  {
    match e
    case Arrive(_, Read, _) | Resume(_, Read) => if OutcomeOf(s, e) == Granted then ReadGranted else Unrelated
    case Expire(_, Read) => if OutcomeOf(s, e) == Granted then ReadGranted else ReaderGaveUp
    case Abort(_, Read) => ReaderGaveUp
    case Expire(_, Write) => if OutcomeOf(s, e) == Granted then Unrelated else WriterGaveUp
    case Abort(_, Write) => WriterGaveUp
    case Release(t, side) =>
      if t in s.readerOwners && (side == Read || s.marker == Some(t))
      then if s.readersActive == 1 then LastReadEnded else Unrelated
      else if EndsWriting(s, e) then WriteEnded else Unrelated
    case Downgrade(_) => if OutcomeOf(s, e) == Done then Demoted else Unrelated
    case _ => Unrelated
  }

  // ---- The phase ----

  // The waiting readers that the phase still waits for once the caller has left.
  ghost function StillReserved(s: State, e: Event): set<ThreadId>
    requires Enabled(s, e)
  {
    var r := OwnRoom(s, e, Read);
    if s.cfg.strategy.StrictFair? then Reserved(r, s.cutoff) else r.inside.Keys
  }

  // A writer that ends or gives up opens a phase if readers are listed, a downgrade always.
  predicate Opens(s: State, e: Event)
    requires Enabled(s, e)
  {
    && IsFair(s)
    && (CauseOf(s, e).Demoted?
        || ((CauseOf(s, e).WriteEnded? || CauseOf(s, e).WriterGaveUp?) && OwnRoom(s, e, Read).queue != []))
  }

  // The last reader, or a reader that gives up while nobody reads, closes a phase that no
  // other reader waits for.
  ghost predicate Closes(s: State, e: Event)
    requires Enabled(s, e)
  {
    && IsFair(s)
    && (CauseOf(s, e).LastReadEnded? || (CauseOf(s, e).ReaderGaveUp? && s.readersTurn && s.readersActive == 0))
    && (s.readersTurn ==> StillReserved(s, e) == {})
  }

  // Whether a phase is open after the step, and up to which ticket.
  ghost function PhaseAfter(s: State, e: Event): (bool, int)
    requires Enabled(s, e)
  {
    if Opens(s, e) then
      if s.cfg.strategy.StrictFair? then (OwnRoom(s, e, Read).inside != map[], s.read.tickets)
      else (true, s.cutoff)
    else if Closes(s, e) then (false, if s.cfg.strategy.StrictFair? then 0 else s.cutoff)
    else (s.readersTurn, s.cutoff)
  }

  // ---- Who is woken ----

  predicate PlainWriterStays(s: State, e: Event)
    requires Enabled(s, e)
  {
    !s.cfg.reentrant && HasWriter(s) && !EndsWriting(s, e)
  }

  // How many of its readers an open phase wakes when the step moves it on: as many as have a
  // slot (strict fair) or all that are listed.
  ghost function PhaseWidth(s: State, e: Event): nat
    requires Enabled(s, e)
  {
    var r := OwnRoom(s, e, Read);
    if PlainWriterStays(s, e) || !PhaseAfter(s, e).0 then 0
    else if s.cfg.strategy.StrictFair? then |Reserved(r, PhaseAfter(s, e).1)|
    else |r.queue|
  }

  ghost function ReadersWoken(s: State, e: Event): nat
    requires Enabled(s, e)
  {
    var listed := |OwnRoom(s, e, Read).queue|;
    match CauseOf(s, e)
    case Unrelated => 0
    case ReadGranted => if IsFair(s) then PhaseWidth(s, e) else 0
    case LastReadEnded => if IsFair(s) then PhaseWidth(s, e) else 0
    case ReaderGaveUp =>
      if s.cfg.strategy.StrictFair? || (s.cfg.strategy.ReaderPhaseFair? && s.readersActive == 0)
      then PhaseWidth(s, e) else 0
    case WriteEnded | WriterGaveUp =>
      (match s.cfg.strategy
       case WriterPreferring => if OwnRoom(s, e, Write).queue == [] then listed else 0
       case ReaderPreferring => listed
       case ReaderPhaseFair | StrictFair => if listed == 0 then 0 else PhaseWidth(s, e))
    case Demoted =>
      (match s.cfg.strategy
       case WriterPreferring => if s.write.room.inside == map[] then listed else 0
       case ReaderPreferring => listed
       case ReaderPhaseFair | StrictFair => PhaseWidth(s, e))
  }

  // At most one writer: unless readers go first, when writing ends or a writer gives up, and
  // when the last reader leaves and no phase goes on.
  ghost function WritersWoken(s: State, e: Event): nat
    requires Enabled(s, e)
  {
    match CauseOf(s, e)
    case WriteEnded | WriterGaveUp =>
      if !s.cfg.strategy.WriterPreferring? && OwnRoom(s, e, Read).queue != [] then 0 else 1
    case LastReadEnded => if IsFair(s) && !Closes(s, e) then 0 else 1
    case ReaderGaveUp =>
      if Closes(s, e)
         || (s.cfg.strategy.ReaderPreferring? && s.readersActive == 0 && OwnRoom(s, e, Read).inside == map[])
      then 1 else 0
    case _ => 0
  }
}
