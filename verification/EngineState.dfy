/** The scenario engine's mutex-guarded state and the effect of each section that runs under the
    mutex, as functions on values. Wall time is a real number of milliseconds. */
module EngineState {
  import opened Actions
  import opened Options

  datatype Status = Pending | Running | Completed | Failed | Skipped

  datatype Event = Event(atMs: int, name: string, status: Status)

  datatype State = State(
    paused: bool,
    stopped: bool,
    speed: real,
    virtualBaseMs: real,
    lastResume: real,
    timeline: seq<Action>,
    nextStatic: nat,
    pending: seq<Action>,
    finished: bool,
    reserved: int,
    nextSeq: nat,
    pendingCommands: set<string>,
    lastActionAt: int,
    eventsRun: nat,
    eventStates: map<nat, Event>)

  const MAX_VIRTUAL: real := MAX_INT64 as real

  // ---- virtual clock ----

  /** Virtual milliseconds covered by a stretch of wall time at a playback speed. */
  function Progress(since: real, speed: real): real
  {
    since * speed
  }

  lemma ProgressIsProduct(since: real, speed: real)
    ensures Progress(since, speed) == since * speed
  {
  }

  function CurrentVirtual(e: State, now: real): real
  {
    if e.paused || e.stopped then e.virtualBaseMs
    else
      var value := e.virtualBaseMs + Progress(now - e.lastResume, e.speed);
      if value < 0.0 then 0.0
      else if value >= MAX_VIRTUAL then MAX_VIRTUAL
      else value
  }

  /** A reading shows a value, as far as the range of the clock goes. */
  predicate Shows(reading: real, value: real)
  {
    && (0.0 <= value <= MAX_VIRTUAL ==> reading == value)
    && (value < 0.0 ==> reading == 0.0)
    && (value > MAX_VIRTUAL ==> reading == MAX_VIRTUAL)
  }

  /** A running clock reads its base plus the wall time since the last resume times the speed. */
  lemma RunningReading(e: State, now: real)
    requires !e.paused && !e.stopped
    ensures Shows(CurrentVirtual(e, now), e.virtualBaseMs + (now - e.lastResume) * e.speed)
  {
    var covered := (now - e.lastResume) * e.speed;
    ProgressIsProduct(now - e.lastResume, e.speed);
    ReadingShows(e, now, covered);
  }

  lemma ReadingShows(e: State, now: real, covered: real)
    requires !e.paused && !e.stopped && covered == Progress(now - e.lastResume, e.speed)
    ensures Shows(CurrentVirtual(e, now), e.virtualBaseMs + covered)
  {
  }

  function VirtualTimeMs(value: real): int
  {
    if value <= 0.0 then 0
    else if value >= MAX_VIRTUAL then MAX_INT64
    else value.Floor
  }

  function Pause(e: State, now: real): State
  {
    if !e.paused && !e.stopped && !e.finished
    then e.(virtualBaseMs := CurrentVirtual(e, now), paused := true)
    else e
  }

  function Resume(e: State, now: real): State
  {
    if e.paused && !e.stopped && !e.finished
    then e.(paused := false, lastResume := now)
    else e
  }

  function SetSpeed(e: State, speed: real, now: real): State
  {
    if speed <= 0.0 then e
    else if !e.paused && !e.stopped && !e.finished
    then e.(virtualBaseMs := CurrentVirtual(e, now), lastResume := now, speed := speed)
    else e.(speed := speed)
  }

  function Stop(e: State): State
  {
    e.(stopped := true)
  }

  // ---- the runner's own sections ----

  function PeekNext(e: State): (State, Option<Action>)
  {
    var head := if e.nextStatic < |e.timeline| then Some(e.timeline[e.nextStatic]) else None;
    var candidate :=
      if |e.pending| > 0 && (head.None? || Before(e.pending[0], head.value))
      then Some(e.pending[0]) else head;
    if candidate.None? then (e.(finished := true), None) else (e, candidate)
  }

  function PopNext(e: State, seqNo: nat): (State, Option<Action>)
  {
    if e.nextStatic < |e.timeline| && e.timeline[e.nextStatic].seqNo == seqNo then
      (e.(nextStatic := e.nextStatic + 1), Some(e.timeline[e.nextStatic]))
    else if |e.pending| > 0 && e.pending[0].seqNo == seqNo then
      (e.(pending := e.pending[1..]), Some(e.pending[0]))
    else (e, None)
  }

  function SetStatus(events: map<nat, Event>, seqNo: nat, status: Status): map<nat, Event>
  {
    if seqNo in events then events[seqNo := events[seqNo].(status := status)] else events
  }

  function StartAction(e: State, a: Action, now: real): State
  {
    e.(virtualBaseMs := a.atMs as real, lastResume := now, lastActionAt := a.atMs,
       eventStates := SetStatus(e.eventStates, a.seqNo, Running))
  }

  function RecordFailure(e: State, a: Action): State
  {
    e.(eventStates := SetStatus(e.eventStates, a.seqNo, Failed))
  }

  function FinishAction(e: State, a: Action): State
  {
    e.(eventsRun := e.eventsRun + 1,
       eventStates :=
         if a.seqNo in e.eventStates && e.eventStates[a.seqNo].status == Running
         then SetStatus(e.eventStates, a.seqNo, Completed) else e.eventStates)
  }

  function MarkFinished(e: State): State
  {
    e.(finished := true)
  }

  predicate Open(status: Status)
  {
    status == Pending || status == Running
  }

  function SkipOpen(events: map<nat, Event>): map<nat, Event>
  {
    map n | n in events :: if Open(events[n].status) then events[n].(status := Skipped) else events[n]
  }

  function SkipPending(e: State): State
  {
    e.(eventStates := SkipOpen(e.eventStates))
  }

  // ---- simulated commands ----

  function TrackCommand(e: State, command: string): State
  {
    if command == "" then e else e.(pendingCommands := e.pendingCommands + {command})
  }

  function UntrackCommand(e: State, command: string): State
  {
    e.(pendingCommands := e.pendingCommands - {command})
  }

  function TakeCommands(e: State): State
  {
    e.(pendingCommands := {})
  }

  // ---- two-phase admission of dynamic actions ----

  datatype Refusal = NotAccepting | NegativeDelay | CapacityExhausted | TimeTooLarge

  datatype Admission = Nothing | Refused(reason: Refusal) | Reserved(actions: seq<Action>)

  predicate Overflows(base: int, delayMs: int)
  {
    delayMs > 0 && base > MAX_INT64 - delayMs
  }

  /** The position of the first request whose absolute time would not fit in 64 bits. */
  function FirstOverflow(base: int, batch: seq<DynamicAction>): (i: nat)
    ensures i <= |batch|
    ensures forall k | 0 <= k < i :: !Overflows(base, batch[k].delayMs)
    ensures i < |batch| ==> Overflows(base, batch[i].delayMs)
  {
    if batch == [] then 0
    else if Overflows(base, batch[0].delayMs) then 0
    else 1 + FirstOverflow(base, batch[1..])
  }

  function Stamp(base: int, after: nat, batch: seq<DynamicAction>): seq<Action>
  {
    seq(|batch|, i requires 0 <= i < |batch| =>
      Action(base + batch[i].delayMs, after + 1 + i, batch[i].name, batch[i].effect))
  }

  /** The virtual instant a batch is anchored to: the running action's own time when the request
      comes from inside it, the virtual clock otherwise. */
  function Anchor(e: State, inner: bool, now: real): int
  {
    if inner then e.lastActionAt else VirtualTimeMs(CurrentVirtual(e, now))
  }

  predicate AcceptsNow(e: State)
  {
    !e.stopped && !e.finished
  }

  function Reserve(e: State, batch: seq<DynamicAction>, inner: bool, now: real): (State, Admission)
  {
    if batch == [] then (e, Nothing)
    else if !AcceptsNow(e) then (e, Refused(NotAccepting))
    else if exists i | 0 <= i < |batch| :: batch[i].delayMs < 0 then (e, Refused(NegativeDelay))
    else if |e.eventStates| + e.reserved + |batch| > MAX_SCHEDULED_ACTIONS then
      (e, Refused(CapacityExhausted))
    else
      var base := Anchor(e, inner, now);
      var bad := FirstOverflow(base, batch);
      if bad < |batch| then (e.(nextSeq := e.nextSeq + bad + 1), Refused(TimeTooLarge))
      else
        (e.(reserved := e.reserved + |batch|, nextSeq := e.nextSeq + |batch|),
         Reserved(Stamp(base, e.nextSeq, batch)))
  }

  /** Writes one event per action, all with the same status. */
  function Recorded(events: map<nat, Event>, actions: seq<Action>, status: Status): (r: map<nat, Event>)
    ensures r.Keys == events.Keys + Numbers(actions)
    ensures forall n | n in events && n !in Numbers(actions) :: r[n] == events[n]
    ensures forall n | n in Numbers(actions) :: r[n].status == status
    decreases |actions|
  {
    if actions == [] then events
    else
      var a := actions[0];
      NumbersConcat([a], actions[1..]);
      assert actions == [a] + actions[1..];
      Recorded(events[a.seqNo := Event(a.atMs, a.name, status)], actions[1..], status)
  }

  /** Persistence of the batch failed: the reservation is returned and the events are skipped. */
  function DropBatch(e: State, actions: seq<Action>): State
  {
    e.(reserved := e.reserved - |actions|, eventStates := Recorded(e.eventStates, actions, Skipped))
  }

  function CommitBatch(e: State, actions: seq<Action>): State
  {
    if !AcceptsNow(e) then DropBatch(e, actions)
    else e.(reserved := e.reserved - |actions|,
            pending := StableSort(e.pending + actions),
            eventStates := Recorded(e.eventStates, actions, Pending))
  }
}
