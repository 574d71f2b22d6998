/** The command lifecycle under concurrent transitions: read, check the transition table, then
    compare-and-set the row. A row carries every state committed to it as a history variable. */
module CommandLifecycle {
  import opened Options

  datatype State = Created | Queued | Sent | Acknowledged | Completed | Rejected | Failed | TimedOut | Cancelled

  type CommandId = string

  datatype Command = Command(
    state: State,
    queuedAt: Option<int>,
    sentAt: Option<int>,
    acknowledgedAt: Option<int>,
    completedAt: Option<int>,
    failureReason: Option<string>,
    path: seq<State>)

  predicate CanTransition(from: State, to: State)
  {
    match from
    case Created => to in {Queued, Sent, Cancelled}
    case Queued => to in {Sent, Cancelled}
    case Sent => to in {Acknowledged, Rejected, Failed, TimedOut, Cancelled}
    case Acknowledged => to in {Completed, Failed, Cancelled}
    case _ => false
  }

  predicate IsTerminal(s: State)
  {
    s in {Completed, Rejected, State.Failed, TimedOut, Cancelled}
  }

  /** How far a command has come. */
  function Rank(s: State): nat
  {
    match s case Created => 0 case Queued => 1 case Sent => 2 case Acknowledged => 3 case _ => 4
  }

  /** A state is terminal exactly when nothing can follow it, and every transition climbs. */
  lemma TableClimbs(from: State, to: State)
    ensures CanTransition(from, to) ==> Rank(from) < Rank(to)
    ensures IsTerminal(from) <==> forall next :: !CanTransition(from, next)
    ensures IsTerminal(from) <==> Rank(from) == 4
  {
    if !IsTerminal(from) {
      assert CanTransition(from, Cancelled);
    }
  }

  /** The same table told from the state that is reached: a command is completed only once acknowledged,
      rejected or timed out only while sent, and can be cancelled until it is settled. */
  lemma WhatPrecedes(from: State, to: State)
    ensures CanTransition(from, to) <==>
      || (to == Cancelled && !IsTerminal(from))
      || (to == Completed && from == Acknowledged)
      || (to == State.Failed && from in {Sent, Acknowledged})
      || (to in {Rejected, TimedOut, Acknowledged} && from == Sent)
      || (to == Sent && from in {Created, Queued})
      || (to == Queued && from == Created)
  {
  }

  function First(stamp: Option<int>, due: bool, now: int): Option<int>
  {
    if due && stamp.None? then Some(now) else stamp
  }

  predicate Failing(s: State)
  {
    s in {Rejected, State.Failed, TimedOut}
  }

  /** The repository binds an empty reason as null. */
  function Bound(reason: string): Option<string>
  {
    if reason == "" then None else Some(reason)
  }

  /** The row after the update statement; `path` only grows when the state really changes. */
  function Moved(c: Command, to: State, reason: string, now: int): Command
  {
    Command(to,
            First(c.queuedAt, to == Queued, now), First(c.sentAt, to == Sent, now),
            First(c.acknowledgedAt, to == Acknowledged, now), First(c.completedAt, to == Completed, now),
            if Failing(to) then Bound(reason) else c.failureReason,
            if to == c.state then c.path else c.path + [to])
  }

  const ISSUED: Command := Command(Sent, None, None, None, None, None, [Sent])

  type Store = map<CommandId, Command>

  /** The compare-and-set of the state column. */
  function CompareAndSet(s: Store, id: CommandId, from: State, to: State, reason: string, now: int): (Store, bool)
  {
    if id in s && s[id].state == from then (s[id := Moved(s[id], to, reason, now)], true) else (s, false)
  }

  datatype Reply = Fine | Refused | Lost

  /** A call of Transition. `Committed` remembers its reason and the position its state took in the path;
      `Declined` the state the call had read, none when a repository call failed or there is no such command. */
  datatype Call =
    | Reading(to: State, reason: string)
    | Writing(from: State, to: State, reason: string)
    | Committed(to: State, reason: string, position: int, reported: bool)
    | Declined(to: State, found: Option<State>)

  datatype Handler = Handler(id: CommandId, call: Call)

  /** `stamped` is a history variable: the state each stamping found, and when. */
  datatype World = World(
    store: Store,
    unstamped: set<CommandId>,
    stamped: map<CommandId, (State, int)>,
    handlers: seq<Handler>)

  datatype Step =
    | Issue(id: CommandId)
    | StampSent(id: CommandId, now: int)
    | Begin(id: CommandId, to: State, reason: string)
    | Read(i: nat, reply: Reply)
    | Write(i: nat, reply: Reply, now: int)

  const EMPTY: World := World(map[], {}, map[], [])

  predicate Enabled(w: World, step: Step)
  {
    match step
    case Issue(id) => id !in w.store
    case StampSent(id, _) => id in w.unstamped
    case Begin(_, _, _) => true
    case Read(i, _) => i < |w.handlers| && w.handlers[i].call.Reading?
    case Write(i, _, _) => i < |w.handlers| && w.handlers[i].call.Writing?
  }

  function AfterRead(s: Store, h: Handler, reply: Reply): Call
    requires h.call.Reading?
  {
    if !reply.Fine? || h.id !in s then Declined(h.call.to, None)
    else if !CanTransition(s[h.id].state, h.call.to) then Declined(h.call.to, Some(s[h.id].state))
    else Writing(s[h.id].state, h.call.to, h.call.reason)
  }

  function DoWrite(w: World, i: nat, reply: Reply, now: int): World
    requires i < |w.handlers| && w.handlers[i].call.Writing?
  {
    var h := w.handlers[i];
    var (store, changed) := CompareAndSet(w.store, h.id, h.call.from, h.call.to, h.call.reason, now);
    if reply.Refused? || !changed then
      var found := if reply.Refused? then None else Some(h.call.from);
      w.(handlers := w.handlers[i := h.(call := Declined(h.call.to, found))])
    else
      var position := |store[h.id].path| - 1;
      w.(store := store,
         handlers := w.handlers[i := h.(call := Committed(h.call.to, h.call.reason, position, reply.Fine?))])
  }

  /** Issue inserts the row as sent; the repository then stamps sent_at with a transition from sent to
      itself, which a concurrent transition may forestall. */
  function Next(w: World, step: Step): World
    requires Enabled(w, step)
  {
    match step
    case Issue(id) => w.(store := w.store[id := ISSUED], unstamped := w.unstamped + {id})
    case StampSent(id, now) =>
      w.(store := CompareAndSet(w.store, id, Sent, Sent, "", now).0, unstamped := w.unstamped - {id},
         stamped := if id in w.store then w.stamped[id := (w.store[id].state, now)] else w.stamped)
    case Begin(id, to, reason) => w.(handlers := w.handlers + [Handler(id, Reading(to, reason))])
    case Read(i, reply) =>
      w.(handlers := w.handlers[i := w.handlers[i].(call := AfterRead(w.store, w.handlers[i], reply))])
    case Write(i, reply, now) => DoWrite(w, i, reply, now)
  }

  predicate Run(w: World, steps: seq<Step>, end: World)
    decreases |steps|
  {
    if steps == [] then w == end
    else Enabled(w, steps[0]) && Run(Next(w, steps[0]), steps[1..], end)
  }

  // ---- invariants ----

  ghost predicate PathOk(c: Command)
  {
    && c.path != [] && c.path[0] == Sent && c.state == c.path[|c.path| - 1]
    && (forall k {:trigger c.path[k]} | 0 < k < |c.path| :: CanTransition(c.path[k - 1], c.path[k]))
  }

  predicate StampsOk(c: Command)
  {
    && (c.acknowledgedAt.Some? <==> Acknowledged in c.path)
    && (c.completedAt.Some? <==> Completed in c.path)
    && (c.failureReason.Some? ==> Rejected in c.path || State.Failed in c.path || TimedOut in c.path)
    && c.queuedAt.None?
  }

  ghost predicate CommandOk(c: Command)
  {
    PathOk(c) && StampsOk(c)
  }

  predicate HandlerOk(s: Store, h: Handler)
  {
    match h.call
    case Writing(from, to, _) => CanTransition(from, to) && h.id in s
    case Committed(to, _, position, _) => h.id in s && 0 < position < |s[h.id].path| && s[h.id].path[position] == to
    case _ => true
  }

  predicate Shares(g: Handler, h: Handler)
  {
    g.id == h.id && g.call.Committed? && h.call.Committed? && g.call.position == h.call.position
  }

  ghost predicate WorldOk(w: World)
  {
    && (forall id {:trigger CommandOk(w.store[id])} | id in w.store :: CommandOk(w.store[id]))
    && (forall i {:trigger HandlerOk(w.store, w.handlers[i])} | 0 <= i < |w.handlers| ::
          HandlerOk(w.store, w.handlers[i]))
    && (forall i, j | 0 <= i < j < |w.handlers| :: !Shares(w.handlers[i], w.handlers[j]))
    && w.unstamped <= w.store.Keys
  }

  lemma MoveKeepsStamps(c: Command, to: State, reason: string, now: int)
    requires StampsOk(c) && c.path != [] && c.state == c.path[|c.path| - 1] && to != Queued
    ensures StampsOk(Moved(c, to, reason, now))
  {
    var n := Moved(c, to, reason, now);
    assert forall s :: s in n.path <==> s in c.path || s == to;
  }

  lemma MoveKeepsPath(c: Command, to: State, reason: string, now: int)
    requires PathOk(c) && (to == c.state || CanTransition(c.state, to))
    ensures PathOk(Moved(c, to, reason, now)) && c.path <= Moved(c, to, reason, now).path
  {
  }

  lemma SentNeverQueues(c: Command, to: State)
    requires PathOk(c) && CanTransition(c.state, to)
    ensures to != Queued
  {
    if |c.path| > 1 {
      RanksClimb(c, 0, |c.path| - 1);
    }
  }

  lemma MoveKeepsCommand(c: Command, to: State, reason: string, now: int)
    requires CommandOk(c) && (CanTransition(c.state, to) || (c.state == Sent && to == Sent))
    ensures CommandOk(Moved(c, to, reason, now)) && c.path <= Moved(c, to, reason, now).path
  {
    if to != Sent || CanTransition(c.state, to) {
      SentNeverQueues(c, to);
    }
    MoveKeepsStamps(c, to, reason, now);
    MoveKeepsPath(c, to, reason, now);
  }

  lemma {:induction false} RanksClimb(c: Command, j: nat, k: nat)
    requires PathOk(c) && j < k < |c.path|
    ensures Rank(c.path[j]) < Rank(c.path[k])
    decreases k
  {
    TableClimbs(c.path[k - 1], c.path[k]);
    if j < k - 1 {
      RanksClimb(c, j, k - 1);
    }
  }

  lemma {:induction false} RankAtLeast(c: Command, k: nat)
    requires PathOk(c) && k < |c.path|
    ensures Rank(c.path[k]) >= 2 + k
  {
    if k > 0 {
      RankAtLeast(c, k - 1);
      TableClimbs(c.path[k - 1], c.path[k]);
    }
  }

  lemma HandlersStay(w: World, n: World, i: nat)
    requires WorldOk(w) && i < |w.handlers| && i < |n.handlers| && n.handlers[i] == w.handlers[i]
    requires forall id | id in w.store :: id in n.store && w.store[id].path <= n.store[id].path
    ensures HandlerOk(n.store, n.handlers[i])
  {
    assert HandlerOk(w.store, w.handlers[i]);
  }

  lemma WriteKeepsWorld(w: World, i: nat, reply: Reply, now: int)
    requires WorldOk(w) && i < |w.handlers| && w.handlers[i].call.Writing?
    ensures WorldOk(DoWrite(w, i, reply, now))
  {
    var n, h := DoWrite(w, i, reply, now), w.handlers[i];
    assert HandlerOk(w.store, h);
    assert CommandOk(w.store[h.id]);
    if w.store[h.id].state == h.call.from {
      MoveKeepsCommand(w.store[h.id], h.call.to, h.call.reason, now);
      TableClimbs(h.call.from, h.call.to);
    }
    assert forall id | id in w.store :: id in n.store && w.store[id].path <= n.store[id].path;
    forall id | id in n.store ensures CommandOk(n.store[id]) {
      assert CommandOk(w.store[id]);
    }
    forall j | 0 <= j < |n.handlers| ensures HandlerOk(n.store, n.handlers[j]) {
      if j != i {
        HandlersStay(w, n, j);
      }
    }
    forall j, k | 0 <= j < k < |n.handlers| ensures !Shares(n.handlers[j], n.handlers[k]) {
      WriteSharesNothing(w, i, reply, now, j, k);
    }
  }

  /** A new position lies beyond every one committed before. */
  lemma WriteSharesNothing(w: World, i: nat, reply: Reply, now: int, j: nat, k: nat)
    requires WorldOk(w) && i < |w.handlers| && w.handlers[i].call.Writing? && j < k < |w.handlers|
    ensures var n := DoWrite(w, i, reply, now); !Shares(n.handlers[j], n.handlers[k])
  {
    assert !Shares(w.handlers[j], w.handlers[k]);
    assert HandlerOk(w.store, w.handlers[i]);
    assert HandlerOk(w.store, w.handlers[j]) && HandlerOk(w.store, w.handlers[k]);
    TableClimbs(w.handlers[i].call.from, w.handlers[i].call.to);
  }

  lemma RestKeepsWorld(w: World, step: Step)
    requires WorldOk(w) && Enabled(w, step) && !step.Write?
    ensures WorldOk(Next(w, step))
  {
    var n := Next(w, step);
    if step.StampSent? {
      assert CommandOk(w.store[step.id]);
      if w.store[step.id].state == Sent {
        MoveKeepsCommand(w.store[step.id], Sent, "", step.now);
      }
    }
    forall id | id in n.store ensures CommandOk(n.store[id]) {
      assert id in w.store ==> CommandOk(w.store[id]);
    }
    forall j | 0 <= j < |n.handlers| ensures HandlerOk(n.store, n.handlers[j]) {
      if j < |w.handlers| && n.handlers[j] == w.handlers[j] {
        HandlersStay(w, n, j);
      }
    }
    forall j, k | 0 <= j < k < |n.handlers| ensures !Shares(n.handlers[j], n.handlers[k]) {
      if k < |w.handlers| {
        assert !Shares(w.handlers[j], w.handlers[k]);
      }
    }
  }

  lemma StepKeepsWorld(w: World, step: Step)
    requires WorldOk(w) && Enabled(w, step)
    ensures WorldOk(Next(w, step))
  {
    if step.Write? {
      WriteKeepsWorld(w, step.i, step.reply, step.now);
    } else {
      RestKeepsWorld(w, step);
    }
  }

  lemma {:induction false} RunKeepsWorld(w: World, steps: seq<Step>, end: World)
    requires WorldOk(w) && Run(w, steps, end)
    ensures WorldOk(end)
    decreases |steps|
  {
    if steps != [] {
      StepKeepsWorld(w, steps[0]);
      RunKeepsWorld(Next(w, steps[0]), steps[1..], end);
    }
  }

  // ---- when sent_at is set ----

  /** The stamp counts only where it found the command still sent. */
  function SentStamp(w: World, id: CommandId): Option<int>
  {
    if id in w.stamped && w.stamped[id].0 == Sent then Some(w.stamped[id].1) else None
  }

  ghost predicate SentFits(w: World)
  {
    && (forall id | id in w.store :: w.store[id].sentAt == SentStamp(w, id))
    && (forall id | id in w.stamped :: id in w.store && id !in w.unstamped)
  }

  /** Nothing returns to sent, so no transition of a handler stamps. */
  lemma NeverSentAgain(c: Command, to: State)
    requires PathOk(c) && CanTransition(c.state, to)
    ensures to != Sent
  {
    RankAtLeast(c, |c.path| - 1);
    TableClimbs(c.state, to);
  }

  lemma StepKeepsSent(w: World, step: Step)
    requires WorldOk(w) && SentFits(w) && Enabled(w, step)
    ensures SentFits(Next(w, step))
  {
    if step.Write? {
      var h := w.handlers[step.i];
      assert HandlerOk(w.store, h);
      assert CommandOk(w.store[h.id]);
      if w.store[h.id].state == h.call.from {
        NeverSentAgain(w.store[h.id], h.call.to);
      }
    }
  }

  lemma {:induction false} RunKeepsSent(w: World, steps: seq<Step>, end: World)
    requires WorldOk(w) && SentFits(w) && Run(w, steps, end)
    ensures SentFits(end)
    decreases |steps|
  {
    if steps != [] {
      StepKeepsSent(w, steps[0]);
      StepKeepsWorld(w, steps[0]);
      RunKeepsSent(Next(w, steps[0]), steps[1..], end);
    }
  }

  // ---- when the failure reason is set ----

  /** Handler i failed the command: rejected it, failed it or timed it out. */
  predicate FailedBy(w: World, i: int, id: CommandId)
  {
    && 0 <= i < |w.handlers| && w.handlers[i].id == id
    && w.handlers[i].call.Committed? && Failing(w.handlers[i].call.to)
  }

  /** Whoever failed a command has the last word, and nobody else gives a reason. */
  ghost predicate ReasonsFit(w: World)
  {
    && (forall i, id | FailedBy(w, i, id) ::
          id in w.store && Failing(w.store[id].state) && w.store[id].failureReason == Bound(w.handlers[i].call.reason))
    && (forall id | id in w.store && w.store[id].failureReason.Some? :: exists i :: FailedBy(w, i, id))
  }

  /** What a write does to the row it finds as expected, and to any other. */
  lemma WriteKeepsReasons(w: World, i: nat, reply: Reply, now: int)
    requires WorldOk(w) && ReasonsFit(w) && i < |w.handlers| && w.handlers[i].call.Writing?
    ensures ReasonsFit(DoWrite(w, i, reply, now))
  {
    var n, h := DoWrite(w, i, reply, now), w.handlers[i];
    assert HandlerOk(w.store, h);
    TableClimbs(h.call.from, h.call.to);
    forall j, id | FailedBy(n, j, id)
      ensures id in n.store && Failing(n.store[id].state)
      ensures n.store[id].failureReason == Bound(n.handlers[j].call.reason)
    {
      if j != i {
        assert FailedBy(w, j, id);
      }
    }
    forall id | id in n.store && n.store[id].failureReason.Some? ensures exists j :: FailedBy(n, j, id) {
      if w.store[id].failureReason.Some? {
        var j :| FailedBy(w, j, id);
        assert FailedBy(n, j, id);
      } else {
        assert FailedBy(n, i, id);
      }
    }
  }

  lemma RestKeepsReasons(w: World, step: Step)
    requires ReasonsFit(w) && Enabled(w, step) && !step.Write?
    ensures ReasonsFit(Next(w, step))
  {
    var n := Next(w, step);
    forall j, id | FailedBy(n, j, id)
      ensures id in n.store && Failing(n.store[id].state)
      ensures n.store[id].failureReason == Bound(n.handlers[j].call.reason)
    {
      assert FailedBy(w, j, id);
    }
    forall id | id in n.store && n.store[id].failureReason.Some? ensures exists j :: FailedBy(n, j, id) {
      var j :| FailedBy(w, j, id);
      assert FailedBy(n, j, id);
    }
  }

  lemma {:induction false} RunKeepsReasons(w: World, steps: seq<Step>, end: World)
    requires WorldOk(w) && ReasonsFit(w) && Run(w, steps, end)
    ensures ReasonsFit(end)
    decreases |steps|
  {
    if steps != [] {
      if steps[0].Write? {
        WriteKeepsReasons(w, steps[0].i, steps[0].reply, steps[0].now);
      } else {
        RestKeepsReasons(w, steps[0]);
      }
      StepKeepsWorld(w, steps[0]);
      RunKeepsReasons(Next(w, steps[0]), steps[1..], end);
    }
  }

  // ---- results ----

  /** A path of the transition table from sent, with strictly increasing rank: only its last state can
      be terminal, and it has at most three. */
  ghost predicate ClimbingPath(path: seq<State>)
  {
    && path != [] && path[0] == Sent && |path| <= 3
    && (forall k {:trigger path[k]} | 0 < k < |path| :: CanTransition(path[k - 1], path[k]))
    && (forall j, k | 0 <= j < k < |path| :: Rank(path[j]) < Rank(path[k]) && !IsTerminal(path[j]))
  }

  lemma PathClimbs(c: Command)
    requires PathOk(c)
    ensures ClimbingPath(c.path)
  {
    forall j, k | 0 <= j < k < |c.path| ensures Rank(c.path[j]) < Rank(c.path[k]) && !IsTerminal(c.path[j]) {
      EarlierIsOpen(c, j, k);
    }
    RankAtLeast(c, |c.path| - 1);
  }

  lemma EarlierIsOpen(c: Command, j: nat, k: nat)
    requires PathOk(c) && j < k < |c.path|
    ensures Rank(c.path[j]) < Rank(c.path[k]) && !IsTerminal(c.path[j])
  {
    RanksClimb(c, j, k);
    TableClimbs(c.path[j], c.path[k]);
  }

  /** The committed states of a command form such a path, and its state is the last of them. */
  lemma {:induction false} CommittedStatesFormAPath(steps: seq<Step>, w: World, id: CommandId)
    requires Run(EMPTY, steps, w) && id in w.store
    ensures ClimbingPath(w.store[id].path)
    ensures w.store[id].state == w.store[id].path[|w.store[id].path| - 1]
  {
    RunKeepsWorld(EMPTY, steps, w);
    assert CommandOk(w.store[id]);
    PathClimbs(w.store[id]);
  }

  /** Of all the concurrent calls that would settle a command, at most one commits; every other is
      declined. */
  lemma {:induction false} OneOutcome(steps: seq<Step>, w: World, i: nat, j: nat)
    requires Run(EMPTY, steps, w) && i < |w.handlers| && j < |w.handlers| && w.handlers[i].id == w.handlers[j].id
    requires w.handlers[i].call.Committed? && IsTerminal(w.handlers[i].call.to)
    requires w.handlers[j].call.Committed? && IsTerminal(w.handlers[j].call.to)
    ensures i == j
    ensures w.handlers[i].id in w.store && w.store[w.handlers[i].id].state == w.handlers[i].call.to
  {
    RunKeepsWorld(EMPTY, steps, w);
    var g, h := w.handlers[i], w.handlers[j];
    assert HandlerOk(w.store, g) && HandlerOk(w.store, h);
    CommittedStatesFormAPath(steps, w, g.id);
    assert !Shares(w.handlers[if i < j then i else j], w.handlers[if i < j then j else i]) || i == j;
  }

  /** Timestamps are set exactly by the states they belong to; sent_at is the time of the stamping that
      follows the insert, unless another transition forestalled it. */
  lemma {:induction false} StampsFollowThePath(steps: seq<Step>, w: World, id: CommandId)
    requires Run(EMPTY, steps, w) && id in w.store
    ensures StampsOk(w.store[id]) && w.store[id].sentAt == SentStamp(w, id)
    ensures id in w.unstamped ==> w.store[id].sentAt.None?
  {
    RunKeepsSent(EMPTY, steps, w);
    RunKeepsWorld(EMPTY, steps, w);
    assert CommandOk(w.store[id]);
  }

  /** A command has a failure reason if and only if a call that failed it gave one that is not empty, and
      then it is the one that call gave. */
  lemma {:induction false} ReasonExactlyWhenGiven(steps: seq<Step>, w: World, id: CommandId)
    requires Run(EMPTY, steps, w) && id in w.store
    ensures w.store[id].failureReason.Some? <==>
      exists i :: FailedBy(w, i, id) && w.handlers[i].call.reason != ""
    ensures forall i | FailedBy(w, i, id) ::
      Failing(w.store[id].state) && w.store[id].failureReason == Bound(w.handlers[i].call.reason)
  {
    RunKeepsReasons(EMPTY, steps, w);
  }

  /** A command failed without a reason: nothing fills one in. */
  lemma ReasonCanBeMissing() returns (steps: seq<Step>, w: World)
    ensures Run(EMPTY, steps, w) && "c" in w.store
    ensures w.store["c"].state == State.Failed && w.store["c"].failureReason.None?
  {
    var issued: World := World(map["c" := ISSUED], {"c"}, map[], []);
    var begun := issued.(handlers := [Handler("c", Reading(State.Failed, ""))]);
    var writing := issued.(handlers := [Handler("c", Writing(Sent, State.Failed, ""))]);
    var failed := Moved(ISSUED, State.Failed, "", 0);
    w := World(map["c" := failed], {"c"}, map[], [Handler("c", Committed(State.Failed, "", 1, true))]);
    assert Next(EMPTY, Issue("c")) == issued;
    assert Next(issued, Begin("c", State.Failed, "")) == begun;
    assert Next(begun, Read(0, Fine)) == writing;
    assert writing.store["c" := failed] == w.store;
    assert Next(writing, Write(0, Fine, 0)) == w;
    var s3: seq<Step> := [Write(0, Fine, 0)];
    var s2 := [Read(0, Fine)] + s3;
    var s1 := [Begin("c", State.Failed, "")] + s2;
    steps := [Issue("c")] + s1;
    assert Run(writing, s3, w);
    assert Run(begun, s2, w);
    assert Run(issued, s1, w);
    assert Run(EMPTY, steps, w);
  }

  // ---- the service ----

  datatype Attempt = Attempt(id: CommandId, from: State, to: State, reason: string, now: int)

  datatype Outcome = NotFound | Invalid | Conflict | Done(c: Command)

  function AttemptAll(s: Store, xs: seq<Attempt>): Store
  {
    if xs == [] then s
    else
      var x := xs[|xs| - 1];
      CompareAndSet(AttemptAll(s, xs[..|xs| - 1]), x.id, x.from, x.to, x.reason, x.now).0
  }

  class Commands {
    var rows: Store

    constructor ()
      ensures rows == map[]
    {
      rows := map[];
    }

    method UpdateState(id: CommandId, from: State, to: State, reason: string, now: int) returns (changed: bool)
      modifies this
      ensures (rows, changed) == CompareAndSet(old(rows), id, from, to, reason, now)
    {
      changed := id in rows && rows[id].state == from;
      if !changed {
        return;
      }
      var c := rows[id];
      if to == Queued && c.queuedAt.None? {
        c := c.(queuedAt := Some(now));
      }
      if to == Sent && c.sentAt.None? {
        c := c.(sentAt := Some(now));
      }
      if to == Acknowledged && c.acknowledgedAt.None? {
        c := c.(acknowledgedAt := Some(now));
      }
      if to == Completed && c.completedAt.None? {
        c := c.(completedAt := Some(now));
      }
      if to == Rejected || to == State.Failed || to == TimedOut {
        c := c.(failureReason := Bound(reason));
      }
      if to != c.state {
        c := c.(path := c.path + [to]);
      }
      rows := rows[id := c.(state := to)];
    }

    method Interfere(meanwhile: seq<Attempt>)
      modifies this
      ensures rows == AttemptAll(old(rows), meanwhile)
    {
      for k := 0 to |meanwhile|
        invariant rows == AttemptAll(old(rows), meanwhile[..k])
      {
        var x := meanwhile[k];
        assert meanwhile[..k + 1][..k] == meanwhile[..k];
        var _ := UpdateState(x.id, x.from, x.to, x.reason, x.now);
      }
      assert meanwhile[..|meanwhile|] == meanwhile;
    }

    /** Transition: whatever other callers write between the read and the write, the command moves only
        along the table, from the very state that was checked, and otherwise stays as they left it. */
    method Transition(id: CommandId, to: State, reason: string, now: int, meanwhile: seq<Attempt>)
          returns (outcome: Outcome)
      modifies this
      ensures outcome.NotFound? <==> id !in old(rows)
      ensures outcome.Invalid? <==> id in old(rows) && !CanTransition(old(rows)[id].state, to)
      ensures outcome.NotFound? || outcome.Invalid? ==> rows == old(rows)
      ensures outcome.Conflict? ==>
        && rows == AttemptAll(old(rows), meanwhile)
        && !(id in rows && rows[id].state == old(rows)[id].state)
      ensures outcome.Done? ==>
        var before := AttemptAll(old(rows), meanwhile);
        && id in before && CanTransition(before[id].state, to)
        && outcome.c == Moved(before[id], to, reason, now) && rows == before[id := outcome.c]
    {
      if id !in rows {
        return NotFound;
      }
      var current := rows[id];
      if !CanTransition(current.state, to) {
        return Invalid;
      }
      Interfere(meanwhile);
      var changed := UpdateState(id, current.state, to, reason, now);
      if !changed {
        return Conflict;
      }
      outcome := Done(rows[id]);
    }
  }
}
