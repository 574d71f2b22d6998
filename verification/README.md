# A verified model of the C4ISR server's stateful core

The server runs simulated scenarios, projects observations and telemetry into tracks and asset states,
raises alerts when tracks enter geofences, and reports how fresh its picture is. Most of its packages
are plain storage; the parts modelled here are the ones in which several threads, a database and
failures meet. `dafny verify dfyconfig.toml` checks everything.

Each part is built the same way. Functions on values say what one atomic step does: a section that
runs under a mutex, one SQL statement, one transaction. A transition system interleaves those steps in
every possible order, with every repository call allowed to fail, with or without having taken effect.
Invariants and theorems are about every run of that system. Classes and methods then give the code its
own form, fields updated in place and loops with their exits, and are proved against the same
functions: what other threads do between two statements of a method comes from a schedule, and whatever
the schedule says, the method makes the steps of the transition system.

| part | files |
|---|---|
| scenario engine | `Actions`, `EngineState`, `Engine`, `EngineMachine`, `EngineShape`, `EngineLifecycle`, `EngineAdmission`, `EngineDue`, `EngineCommands`, `EngineReleases`, `EngineOrder`, `EngineClosedRun`, `EngineClock`, `EnginePacing`, `EngineProgress`, `EngineLateCommand`, `EngineRun` |
| timeline and motion | `Timeline`, `Motion` |
| command simulation and lifecycle | `CommandSimulation`, `CommandLifecycle`, `CommandProgress` |
| run supervision | `RunLifecycle`, `RunLifecycleResults`, `RunVerdicts`, `RunSupervisor` |
| track projection | `TrackStore`, `TrackHandler`, `TrackRows`, `TrackMachine`, `TrackSafety`, `TrackResults`, `TrackProgress`, `TrackService`, `TrackRefinement` |
| containment and alerts | `GeofenceStates`, `Containment`, `ContainmentResults`, `ContainmentSettles`, `ContainmentService` |
| telemetry projection | `Telemetry`, `TelemetryResults`, `TelemetryDuplicates`, `TelemetryService`, `TelemetryRefinement` |
| freshness | `Freshness`, `FreshnessMonitor` |
| shared | `Options`, `Sequences` |

Instants are integers, virtual time, speeds, coordinates and distances are reals, and geometry is
uninterpreted: containment and distance are parameters, and a derived speed and heading are kept as the
two fixes they are a function of. Clocks, identifiers, replies of the database and the order in which
threads move are inputs.

## Where the code and its comments part

The model follows the code. What then holds is proved, and where a comment promises more there is a
concrete run that breaks the promise.

* `popNext` takes the head of the static timeline without comparing it with the dynamic queue
  (`internal/scenarios/engine.go:744`). A command injected while the loop waits for a static action can
  run late and set virtual time back (`EngineLateCommand.VirtualTimeCanGoBack`). The executed actions are
  in order if and only if every accepted batch came in ahead of the point the runner had reached
  (`EngineOrder.OrderedExactlyWhenPunctual`); closed runs always are (`EngineClosedRun`).
* `Stop` freezes the clock at its base, not at its reading, and `SetSpeed` does not rebase a finished
  engine; `EngineClock` says exactly when each of them keeps the reading.
* `entityMotion.at` extrapolates the next segment backwards in an idle gap
  (`Motion.RightExactlyOutsideGaps`, `Motion.GapExample`). A move departs from where that query puts the
  entity, which is not where its last move ended when that move took no time
  (`Motion.DepartsFromStopExactlyWhen`, `Motion.JumpIsForgotten`).
* A reconcile of geofence states is skipped unless its observation is the newest of the track, and an
  update without a position also counts as newer. An entry can be missed although no call fails
  (`ContainmentSettles.EntryCanBeMissed`). The table shows the last known position exactly when its update
  was not overtaken before its reconcile, or the position shown instead lies in the same geofences
  (`ContainmentSettles.CaughtUpExactlyWhen`).
* A vanished entity is reported as unknown, which is not trustworthy, so it stays in the stale gauge;
  accepted telemetry is meant to clear an asset there, but uses the bare identifier and never hits the
  asset's own key; an identifier with a colon can be the key of another entity, which is then cleared
  (`FreshnessMonitor.WhatTheMonitorShows`, `FreshnessMonitor.Monitor.TelemetryAccepted`,
  `FreshnessMonitor.IdentifierCollides`).
* `Reject`, `Fail` and `Timeout` fill in a missing reason, a plain transition to the same states does not:
  a failed command can be without one (`CommandLifecycle.ReasonExactlyWhenGiven`,
  `CommandLifecycle.ReasonCanBeMissing`).
* A connection change whose commit went through but whose reply was lost is never published, and no
  later update repeats it (`TelemetryResults.ChangeCanGoUnheard`).
* A telemetry message whose insert went through but whose reply was lost is a duplicate when it is sent
  again, and is never applied (`TelemetryDuplicates.MessageCanBeLost`).
* `Normalized` does not always give strictly increasing thresholds (`Freshness.IncreasingExactlyWhen`).
* `FindTrackByObservationID` sorts a row that matches only by metadata before one that matches by
  evidence, since its descending key is null; this never matters (`TrackResults.Ownership`).

## Model

| member | source | states |
|---|---|---|
| Engine.Engine.constructor | internal/scenarios/engine.go:165-197 | a new engine is running, unfinished and empty but for its timeline, with one pending event an action and a positive speed |
| Engine.Engine.Pause | internal/scenarios/engine.go:949-957 | an unfinished running engine is paused and reads the same at every later instant as at this one; any other is left as it is, and nothing else changes |
| Engine.Engine.Resume | internal/scenarios/engine.go:966-974 | a paused unfinished engine runs again, and at every later instant reads what it read at this one plus the wall time since then times the speed, within the bounds of the clock; any other is left as it is |
| Engine.Engine.SetSpeed | internal/scenarios/engine.go:977-989 | a positive speed is taken over; a running unfinished engine then reads at every later instant what it read at this one plus the wall time since then times the new speed; a paused, stopped or finished one is not rebased |
| Engine.Engine.Stop | internal/scenarios/engine.go:992-997 | only the stopped flag changes |
| Engine.Engine.PeekNext | internal/scenarios/engine.go:713-732 | the lesser of both heads is selected without being taken; the engine is finished when there is none |
| Engine.Engine.PopNext | internal/scenarios/engine.go:741-756 | the static head is taken first when its number matches, then the queue's head, otherwise nothing |
| Engine.Engine.StartAction | internal/scenarios/engine.go:641-651 | clock, last action and event status after an action is marked running |
| Engine.Engine.RecordFailure | internal/scenarios/engine.go:661-668 | only the action's event becomes failed |
| Engine.Engine.FinishAction | internal/scenarios/engine.go:680-685 | the action is counted, and completed when still running |
| Engine.Engine.MarkFinished | internal/scenarios/engine.go:959-963 | only the finished flag changes |
| Engine.Engine.SkipPending | internal/scenarios/engine.go:888-898 | every open event becomes skipped, whatever the order of the map, and no other changes |
| Engine.Engine.TrackCommand | internal/scenarios/engine.go:911-918 | a named command becomes tracked |
| Engine.Engine.UntrackCommand | internal/scenarios/engine.go:920-924 | the command is no longer tracked |
| Engine.Engine.TakeCommands | internal/scenarios/engine.go:926-933 | the tracked commands are emptied and each is handed out once |
| Engine.Engine.Reserve | internal/scenarios/engine.go:762-807 | exactly when a batch is refused for which reason; an accepted one gets the next numbers in turn, its names and effects, and times that lie its delays after the clock reading, or after the last action for a request from inside one; a refusal returns the reservation, and a time that is too large costs the numbers up to it |
| Engine.Engine.DropBatch | internal/scenarios/engine.go:819-826 | the reservation is returned and the batch's events are skipped |
| Engine.Engine.CommitBatch | internal/scenarios/engine.go:832-857 | the batch joins the sorted queue whole, or is skipped whole when the engine has stopped or finished |
| EngineRun.ScenarioRun.constructor | internal/scenarios/engine.go:609-614 | a run starts from what build leaves |
| EngineRun.ScenarioRun.WaitUntil | internal/scenarios/engine.go:1045-1084 | the wait ends with the action due while the run is neither paused nor stopped, or leaves because it was stopped or cancelled, whatever others do meanwhile |
| EngineRun.ScenarioRun.Inject | internal/scenarios/engine.go:1388-1477 | each section of a command injection is the step of the transition system |
| EngineRun.ScenarioRun.Leave | internal/scenarios/engine.go:621-632 | after every early exit the engine is finished, no event is open and no command is tracked |
| EngineRun.ScenarioRun.Run | internal/scenarios/engine.go:609-711 | under every interleaving the loop makes steps of the transition system, and once it has returned the engine is finished and no event is open |
| EngineShape.PopTakesOne | internal/scenarios/engine.go:741-756 | popping removes exactly one action from those that remain and keeps both queues ordered |
| EngineShape.CommitKeepsShape | internal/scenarios/engine.go:851-856 | committing keeps the queue ordered and numbers unique |
| EngineShape.StepKeepsFormed | internal/scenarios/engine.go:713-857 | over every step both queues stay ordered, numbers are never reused and a reservation owns its numbers |
| EngineLifecycle.ExitLeavesNothingOpen | internal/scenarios/engine.go:609-711 | every exit of run leaves the engine finished and every event completed, failed or skipped |
| EngineLifecycle.StepMovesEvents | internal/scenarios/engine.go:641-711 | each event only moves from pending to running to completed, failed or skipped, or from pending to skipped |
| EngineLifecycle.FinalStatusIsKept | internal/scenarios/engine.go:888-898 | final statuses never change afterwards, and events are never removed |
| EngineLifecycle.NoActionStartsTwice | internal/scenarios/engine.go:741-756 | no action starts twice in any run |
| EngineLifecycle.AtMostOneStartAfterStop | internal/scenarios/engine.go:992-1052 | after a stop at most one further action starts |
| EngineLifecycle.EventsRunCountsStarts | internal/scenarios/engine.go:680-685 | the counter of actions run agrees with the actions started |
| EngineAdmission.ReservationsAreExact | internal/scenarios/engine.go:762-857 | reserved equals the sizes of the batches in flight, and events plus reservations never exceed 20000 |
| EngineAdmission.CommitIsAllOrNothing | internal/scenarios/engine.go:832-857 | a batch enters the queue wholly or not at all |
| EngineAdmission.OnlyCommitsEnqueue | internal/scenarios/engine.go:851-855 | nothing else puts an action into the queue |
| EngineAdmission.NothingEntersAfterTheEnd | internal/scenarios/engine.go:833-850 | once stopped or finished, nothing enters the queue any more |
| EngineAdmission.ReserveDecides | internal/scenarios/engine.go:762-807 | the same of the step of the transition system |
| EngineDue.DueWhenReserved | internal/scenarios/engine.go:783-806 | in every reachable state an accepted request from outside is due its delays after the reading of the clock, and one from inside an action its delays after the action executed last, which is still acting |
| EngineDue.ExecutedAsPromised | internal/scenarios/engine.go:783-857 | whatever happens in between, what is executed under a reserved number has the name, the effect and the time that were promised at the reservation |
| EngineDue.EventsDescribeActions | internal/scenarios/engine.go:794-857 | every action queued or taken has an event at its time and under its name |
| EngineDue.VirtualTimeTruncates | internal/scenarios/engine.go:1035-1043 | virtual milliseconds are the reading rounded down, within the bounds of 64 bits |
| EngineCommands.NoCommandStillWaits | internal/scenarios/engine.go:926-946 | once run has returned and no injection is in flight, no command is tracked |
| EngineCommands.ReleasedForAReason | internal/scenarios/engine.go:1388-1477 | every command that is no longer tracked was released by its outcome, a refused acknowledgement or a failure |
| EngineReleases.ReturnReleases | internal/scenarios/engine.go:1418-1466 | an outcome takes its command out of those that wait, an acknowledgement only when it fails, any other action none |
| EngineReleases.OnlyRefusalsRelease | internal/scenarios/engine.go:1443-1450 | a command released by its acknowledgement has an executed acknowledgement whose event failed, or is about to |
| EngineOrder.OrderedExactlyWhenPunctual | internal/scenarios/engine.go:741-756 | the executed actions are strictly ordered by time and number if and only if no batch was committed behind the runner |
| EngineLateCommand.VirtualTimeCanGoBack | internal/scenarios/engine.go:741-756 | a reachable run with one external command whose executed actions are out of order and whose clock goes back |
| EngineClosedRun.OneReferenceTrace | internal/scenarios/engine.go:713-739 | there is one trace that always takes the least remaining action |
| EngineClosedRun.ClosedRunFollowsReference | internal/scenarios/engine.go:784-790 | however a closed run is paced, it executes a prefix of that trace, strictly ordered |
| EngineClosedRun.DrainedRunIsComplete | internal/scenarios/engine.go:616-619 | a closed run that exits because nothing is left has executed the whole trace |
| EngineClosedRun.PacingIndependence | internal/scenarios/engine.go:609-755 | of two closed runs paced in any two ways the shorter log is a prefix of the longer, and drained ones are equal |
| EngineClock.TickMovesForward | internal/scenarios/engine.go:1020-1033 | time never moves the clock back, nor at all while paused or stopped |
| EngineClock.PauseAndResumeKeepReading | internal/scenarios/engine.go:949-974 | pausing and resuming do not change the reading |
| EngineClock.SetSpeedKeepsReading | internal/scenarios/engine.go:977-989 | exactly when a change of speed keeps the reading |
| EngineClock.StopKeepsReading | internal/scenarios/engine.go:992-997 | exactly when a stop keeps the reading |
| EngineClock.StartSetsReading | internal/scenarios/engine.go:642-645 | starting an action sets the clock to its time |
| EngineClock.VirtualTimeNeverBelowLastAction | internal/scenarios/engine.go:640-645 | in every reachable state speed is positive and virtual time is at least the last action's |
| EngineClock.PauseHolds | internal/scenarios/engine.go:949-974 | from a pause until a resume at most the one action starts that had been waited for, and until it does the clock stands |
| EngineClock.DueAfterTheWait | internal/scenarios/engine.go:1020-1056 | on a running engine an action that lies ahead is due exactly once the virtual time still missing has passed at the present speed |
| EnginePacing.NothingStartsEarly | internal/scenarios/engine.go:1045-1056 | however a run is paced, an action of a run that is not stopped starts only when the clock has reached its time, and sets the clock to it |
| EngineProgress.PlainFailuresDoNotEndARun | internal/scenarios/engine.go:654-710 | without a stop, a cancellation, a failed persistence call or a fatal failure a run is never left early, and when it has returned it has executed the whole timeline and everything committed meanwhile |
| EngineProgress.NothingStartsOnceDoomed | internal/scenarios/engine.go:647-710 | after a fatal failure, a failed persistence call or a wait that was broken off no action starts |
| EngineProgress.WhatDooms | internal/scenarios/engine.go:620-710 | exactly what makes a run leave |
| EngineProgress.OutcomeIsRecorded | internal/scenarios/engine.go:654-702 | the event of an action that has returned is completed if it returned without an error and failed if with one, for good |
| CommandSimulation.ValidBatch | internal/scenarios/domain.go:295-330 | a validated simulation schedules a well-formed batch with positive delays, the acknowledgement never after the completion |
| CommandSimulation.AnswersByBehavior | internal/scenarios/engine.go:1398-1466 | which answers are scheduled under which behaviour, and after which delays |
| CommandSimulation.RefusedExactlyWhenOutOfOrder | internal/scenarios/domain.go:295-330 | of the known behaviours with proper delays exactly those are refused that would complete a command before acknowledging it |
| CommandSimulation.StampedInOrder | internal/scenarios/engine.go:1440-1454 | whatever a validated scenario schedules, a completion is stamped together with its acknowledgement and after it |
| CommandSimulation.AcknowledgePrecedesComplete | internal/scenarios/engine.go:1440-1454 | in every run whose commands are simulated as validated scenarios say, a completion is only taken after the acknowledgement it was scheduled with |
| CommandLifecycle.TableClimbs | internal/commands/domain.go:90-113 | every transition climbs in rank, and terminal states are exactly those nothing follows |
| CommandLifecycle.WhatPrecedes | internal/commands/domain.go:90-103 | the table told from the state reached: what each state can be entered from |
| CommandLifecycle.CommittedStatesFormAPath | internal/commands/service.go:87-127 | under concurrent calls the committed states form a path of the table with rising rank, of which only the last is terminal |
| CommandLifecycle.OneOutcome | internal/commands/service.go:87-127 | of all concurrent calls that would settle a command at most one commits |
| CommandLifecycle.StampsFollowThePath | internal/dbgen/commands.sql.go:177-187 | timestamps are set exactly by the states they belong to, and sent_at by the stamping that follows the insert unless a transition forestalled it |
| CommandLifecycle.ReasonExactlyWhenGiven | internal/commands/postgres_repository.go:94-100 | a command has a failure reason if and only if a call that rejected it, failed it or timed it out gave one that is not empty, and then that one |
| CommandLifecycle.ReasonCanBeMissing | internal/commands/postgres_repository.go:94-100 | a command that fails without a reason |
| CommandProgress.DeclinedForAReason | internal/commands/service.go:87-127 | when no repository call fails, a transition asked for ends committed, or the table forbids it from the state read, or the command has left that state since |
| CommandProgress.StampedWhenReached | internal/dbgen/commands.sql.go:177-187 | the time of acknowledgement or completion is that of the write that took the command there, for good |
| CommandLifecycle.Commands.UpdateState | internal/dbgen/commands.sql.go:177-187 | the compare-and-set and every column it sets, an empty reason as null |
| CommandLifecycle.Commands.Transition | internal/commands/service.go:87-127 | whatever is written between read and write, the command moves along the table from the state that was checked, or stays as it was left |
| RunLifecycleResults.TerminalIsAbsorbing | internal/scenarios/service.go:603-637 | a terminal status never changes, whatever operators and runners do |
| RunLifecycleResults.NothingFollowsTheEnd | internal/scenarios/service.go:603-637 | a run publishes at most one end, nothing about it afterwards, and the end published is the status stored |
| RunLifecycleResults.OneWriterPerRun | internal/scenarios/service.go:466-475 | the operator call and the runner never hold a run's guard together |
| RunLifecycleResults.RestartLeavesNoGhost | internal/scenarios/service.go:393-437 | a restart starts the new run only when the run it replaces is over and its engine, if it still has one, is stopped |
| RunLifecycleResults.NothingStartsAfterClose | internal/scenarios/service.go:653-689 | after closing began nothing is created, registered or announced; once it waits for the runners every engine left is stopped, and after nil none is left, then or ever |
| RunVerdicts.RunsEndAsTheyReturned | internal/scenarios/service.go:171-191 | a run closed by its runner is completed if and only if it returned without an error and was not stopped, failed if and only if with one and not stopped, stopped if and only if it was; one closed by a call is stopped, or failed if it never got a runner; what is published is what is stored |
| RunSupervisor.Supervisor.constructor | internal/scenarios/service.go:55-74 | a new service is in the initial world over whatever runs the database holds |
| RunSupervisor.Supervisor.Start | internal/scenarios/service.go:88-201 | a started run is stored as running, announced, registered and executed, and the service was open; without failing calls only a closed service or a taken identifier prevents it |
| RunSupervisor.Supervisor.Command | internal/scenarios/service.go:204-285 | after a pause the run is stored as paused, its engine is told and the event says so, after a resume likewise; a change of speed leaves both; without failing calls only an unknown, finished or engineless run is refused |
| RunSupervisor.Supervisor.Stop | internal/scenarios/service.go:288-318 | a successful stop has stopped the engine and leaves the run stored and published as stopped; without failing calls only an unknown, finished or engineless run is refused |
| RunSupervisor.Supervisor.Restart | internal/scenarios/service.go:393-437 | a successful restart leaves the old run over and a new one running; without failing calls only a closed service, an unknown run or a taken identifier prevents it |
| RunSupervisor.Supervisor.FinalizeRunLocked | internal/scenarios/service.go:610-637 | success leaves the run over, and by a stop stopped and published as that, whatever runners do meanwhile; without failing calls it succeeds |
| RunSupervisor.Supervisor.Close | internal/scenarios/service.go:655-689 | the service is closed, and nil means no engine is left |
| Timeline.BuildScenario | internal/scenarios/engine.go:241-592 | build as a whole succeeds if and only if every move can be applied in time order and the plan over the paths they make fits, and then gives the timeline of that plan |
| Timeline.Build | internal/scenarios/engine.go:358-592 | with the moves made, building succeeds exactly when the plan fits, and the timeline then holds every planned action once, numbered from one, in order, within 64-bit times |
| Timeline.SampledTicks | internal/scenarios/engine.go:377-473 | a sampling loop emits at its start and every step up to its last instant, and nowhere else, with or without duplicates |
| Timeline.SamplesFitExactlyWhen | internal/scenarios/engine.go:377-473 | its times fit if and only if those of its last tick do, and the step beyond it where the loop takes one |
| Timeline.TelemetryIsPlanned | internal/scenarios/engine.go:358-398 | an asset reports at the beginning if it is placed, and then at every full second up to its last arrival, and never else |
| Timeline.ObservationsArePlanned | internal/scenarios/engine.go:404-473 | at which instants a track is observed, with the delay, the default end and the duplicate half a second behind, and at no others |
| Timeline.OthersArePlanned | internal/scenarios/engine.go:474-577 | at which instants an area is reported; every other event plans its one action, and a move none |
| Timeline.Builder.Sample | internal/scenarios/engine.go:423-473 | the loop ends, and succeeds exactly when every time and step it takes fits and the capacity suffices |
| Timeline.Builder.AddAsset | internal/scenarios/engine.go:360-398 | the telemetry planned for one asset, or refusal exactly when it does not fit |
| Timeline.Builder.AddEvent | internal/scenarios/engine.go:400-577 | the actions planned for one event, or refusal exactly when they do not fit |
| Timeline.BuiltIsBuilt | internal/scenarios/engine.go:583-591 | what build leaves is what every run of the engine is assumed to start from |
| Motion.AppendMove | internal/scenarios/engine.go:310-356 | a move departs when asked or when the last one arrives, keeps the path in time order without overlap, and keeps it connected exactly when it departs from where the last one ended |
| Motion.DepartsFromStopExactlyWhen | internal/scenarios/engine.go:323-332 | a move departs from where the last one ended if and only if it leaves later, or the segments without duration that end the path end where the first of them began |
| Motion.SteadyDeparts | internal/scenarios/engine.go:323-332 | if nothing moves in no time, every move departs from where the last one ended |
| Motion.JumpIsForgotten | internal/scenarios/engine.go:334-355 | a move of a millimetre that the next one departs before |
| Motion.TravelContinues | internal/scenarios/engine.go:334-355 | a travel visits its waypoints one after the other without a gap and continues a path into a path |
| Motion.TravelTakesItsTime | internal/scenarios/engine.go:334-355 | each segment takes its distance at its speed in whole milliseconds, rounded down |
| Motion.RefusedOutOfReach | internal/scenarios/engine.go:334-355 | a travel is refused only for a waypoint that cannot be reached within 64-bit milliseconds |
| Motion.ExtendedIsPath | internal/scenarios/engine.go:319-356 | a move departs at the later of its time and the last arrival, from where the query puts the entity, and visits its waypoints; the path stays one, connected exactly when it departs from its end |
| Motion.SpeedIsChosen | internal/scenarios/engine.go:313-321 | the speed of the move, or else the positive one of the entity, or else fifteen |
| Motion.BuildMotions | internal/scenarios/engine.go:298-356 | the result is that of all moves applied in time order, refused exactly when one cannot be applied; every path ends within 64-bit milliseconds, only continues, and is connected if nothing on it moves in no time |
| Motion.ByTimeSorts | internal/scenarios/engine.go:304-308 | the moves are taken in time order, each once |
| Motion.ByTimeIsStable | internal/scenarios/engine.go:304-308 | moves of one instant keep the order of the scenario |
| Motion.QueryAt | internal/scenarios/engine.go:77-109 | the search through the segments gives the position the specification says |
| Motion.InsideIsBetween | internal/scenarios/engine.go:94-105 | a position inside a segment lies between its endpoints, and is each of them at its end |
| Motion.ConstantPace | internal/scenarios/engine.go:94-105 | the part of a segment covered is the part of its time that has passed |
| Motion.RightExactlyOutsideGaps | internal/scenarios/engine.go:87-108 | the query gives where the entity stands if and only if it is not asked in an idle gap before a segment that goes somewhere |
| Motion.GapStands | internal/scenarios/engine.go:94-105 | on a connected path an idle entity stands where its last move ended |
| Motion.GapExample | internal/scenarios/engine.go:94-105 | a path on which the query is far off in a gap |
| TrackResults.WatermarkNeverFalls | internal/dbgen/tracks.sql.go:14-24 | per track the watermark never falls and committed projections are only added |
| TrackResults.HistoryIncreases | internal/tracks/service.go:152-171 | committed history timestamps strictly increase and stay at or below the watermark |
| TrackResults.ProjectedAtMostOnce | internal/tracks/service.go:107-171 | an observation is projected at most once, on one track, even when its retry races the original |
| TrackResults.PublishedMotionIsExact | internal/tracks/service.go:137-207 | a published speed and heading come from exactly the position and watermark in force before the commit |
| TrackResults.ReplayAgreesWithLive | internal/dbgen/picture.sql.go:221-239 | for every instant the newest history sample shows the position, speed and heading the live projection had then |
| TrackResults.Ownership | internal/tracks/service.go:271-335 | every way of finding an observation's track leads to its one owner, no observation starts two tracks, no hint names two, processed implies attached |
| TrackResults.GaveUpWasOvertaken | internal/tracks/service.go:134-193 | a handler that gives up has seen the watermark advance strictly three times |
| TrackResults.WatermarkIsMaximum | internal/tracks/service.go:134-193 | when all handlers have ended without error the watermark is the greatest time among all observations attached to the track, leaving out only those a handler gave up on, and belongs to an observation that was projected |
| TrackResults.SupersededWasOvertaken | internal/tracks/service.go:138-188 | an observation is only passed over if the track has been seen strictly later, or something was projected at its time or later |
| TrackResults.EveryTrackIsProjected | internal/tracks/service.go:134-207 | when all handlers have ended without error every track has a state, and its newest projection is at its watermark and was published |
| TrackResults.LatestPositionIsLive | internal/tracks/service.go:134-207 | then an observation with a position that alone attains the watermark is the live position and the newest of the history |
| TrackProgress.NothingBreaksByItself | internal/tracks/service.go:69-208 | when no call fails no handler ends in error, whatever races with it; each marks its observation, or leaves it to another that carries it |
| TrackProgress.EveryObservationIsProcessed | internal/tracks/service.go:69-208 | when no call fails and all handlers have ended every stored observation is attached and processed |
| TrackProgress.ProjectedIsProcessed | internal/tracks/postgres_repository.go:144-185 | whatever was projected is marked processed |
| TrackProgress.RedeliveryRetriesTheUnprocessed | internal/observations/service.go:97-116 | a delivery of a stored observation changes nothing of it and starts a retry exactly when it is unprocessed |
| TrackRows.ReplayAgrees | internal/dbgen/picture.sql.go:221-239 | the same for one row, from what its commits keep |
| TrackRows.AdvanceKeepsRow | internal/dbgen/tracks.sql.go:14-42 | a projection accepted by the compare-and-set keeps the row's history and motion exact |
| TrackRows.DerivedFromTheRow | internal/tracks/service.go:340-351 | a matching watermark means motion was derived from the row itself, or from nothing |
| TrackMachine.OneTarget | internal/tracks/service.go:271-335 | an observation has one possible track |
| TrackMachine.FoundIsTarget | internal/dbgen/tracks.sql.go:300-316 | the lookup by observation finds that track |
| TrackMachine.ApplyKeepsStore | internal/tracks/postgres_repository.go:144-185 | the projection transaction keeps every row, index and link consistent |
| TrackSafety.StepKeepsWorld | internal/tracks/service.go:69-208 | every call of every handler, failing or not, keeps the invariant of store and handlers |
| TrackRefinement.HandlersRunTheMethod | internal/tracks/service.go:69-208 | every handler in every interleaving behaves as the method does under some schedule |
| TrackService.Repository.CreateTrack | internal/tracks/postgres_repository.go:31-48 | the insert and its two unique indexes |
| TrackService.Repository.AttachObservation | internal/dbgen/tracks.sql.go:71-77 | evidence is linked once |
| TrackService.Repository.ApplyObservationWithHistory | internal/tracks/postgres_repository.go:144-185 | the conditional projection, history entry and processed mark as one step |
| TrackService.Repository.FindByObservationID | internal/dbgen/tracks.sql.go:300-316 | the row the lookup returns, metadata match first |
| TrackService.Repository.Correlate | internal/tracks/service.go:271-335 | correlation reaches a track or an error exactly as the call sequence does, under every schedule |
| TrackService.Repository.Project | internal/tracks/service.go:134-193 | the three-attempt loop takes exactly the steps of the transition system |
| TrackService.Repository.HandleObservationReceived | internal/tracks/service.go:69-208 | under every schedule of other handlers and failures the handler ends, where the same turns take the transition system |
| GeofenceStates.TransitionsAreTheDifference | internal/dbgen/geofences.sql.go:299-347 | after a reconcile the inside set in scope is the containing set, the transitions are the symmetric difference, and nothing else changed |
| GeofenceStates.ScopeIsPrefix | internal/geospatial/service.go:137-150 | a scope covers exactly the identifiers that begin with it |
| GeofenceStates.Table.Reconcile | internal/dbgen/geofences.sql.go:299-347 | eligible exactly for the newest observation; entered pairs upserted, exited ones updated, exactly the changes returned |
| ContainmentResults.RegularMeansAlternating | internal/dbgen/geofences.sql.go:319-345 | a history in which breaches are found outside and exits inside alternates from its first breach |
| ContainmentResults.BreachesAndExitsAlternate | internal/geospatial/service.go:100-129 | per geofence and track committed transitions alternate, and breaches exceed exits by one exactly while inside |
| ContainmentResults.OneStandingAlert | internal/alerts/service.go:158-231 | at most one alert of a pair is unresolved, and one is exactly when a breach was decided since the last resolution; alerts never exceed entries |
| ContainmentResults.BreachesAreConserved | internal/alerts/service.go:158-231 | every entry is decided, dropped by a failed call, or still on its way |
| ContainmentResults.EveryBreachIsDecided | internal/alerts/service.go:158-231 | without failing calls no breach is lost, and once all handlers have ended as many are decided as tracks went in |
| ContainmentResults.AlertsOnlyAdvance | internal/dbgen/alerts.sql.go:12-16 | alerts begin active, are acknowledged or resolved only by the calls that say so, and never go back |
| ContainmentSettles.InsideOfTheLastTimely | internal/dbgen/geofences.sql.go:299-347 | with fixed geofences, at every moment and whatever fails, the inside set is what contains the position of the last update reconciled in time |
| ContainmentSettles.CaughtUpExactlyWhen | internal/dbgen/geofences.sql.go:302-307 | once all handlers have ended, the inside set is what contains the last known position if and only if its update was not overtaken before its reconcile, or the position shown lies in the same geofences |
| ContainmentSettles.ContainmentCatchesUp | internal/geospatial/service.go:60-130 | with fixed geofences and no failure, a latest update with a position is never overtaken: the inside set ends up as what contains it |
| ContainmentSettles.EntryCanBeMissed | internal/dbgen/geofences.sql.go:302-307 | a run without failures in which an update without a position makes an entry go unnoticed |
| ContainmentService.HandleTrackUpdated | internal/geospatial/service.go:60-130 | which failures end the call with what done; breaches and exits published are exactly the changes, and an alert stands exactly where one stood or a breach was answered |
| ContainmentService.ScopedGeofences | internal/geospatial/service.go:137-150 | exactly the geofences of the scope are kept |
| ContainmentService.Alerts.FindUnresolved | internal/dbgen/alerts.sql.go:147-152 | an unresolved alert is found exactly when there is one |
| ContainmentService.Alerts.Create | internal/alerts/postgres_repository.go:27-53 | the partial unique index refuses a second unresolved alert |
| ContainmentService.Alerts.Acknowledge | internal/dbgen/alerts.sql.go:12-16 | only active alerts are acknowledged, and none stops standing |
| ContainmentService.Alerts.Resolve | internal/dbgen/alerts.sql.go:364-368 | only unresolved alerts are resolved, and only that one stops standing |
| ContainmentService.Alerts.HandleGeofenceBreached | internal/alerts/service.go:158-231 | an alert is raised exactly when none stands and the calls succeed |
| TelemetryResults.LastSeenStrictlyIncreases | internal/dbgen/assets.sql.go:417-448 | last_seen_at strictly increases with every applied sample |
| TelemetryResults.StaleOrUpdated | internal/telemetry/service.go:109-181 | a successful ingest of a new message is stale exactly when it did not update the state, and then the asset has been seen at its time or later, or others were applied before it in each of three attempts |
| TelemetryResults.RowShowsTheSamples | internal/dbgen/assets.sql.go:417-448 | the position stored is that of the last applied sample that had one, connection state and last_seen_at those of the last one, "connected" where it gave none and "unknown" before the first |
| TelemetryResults.AtMostThreeAttempts | internal/telemetry/service.go:109-157 | no sample is tried more than three times |
| TelemetryResults.NothingFailsByItself | internal/telemetry/service.go:56-182 | an ingest only fails when a repository call does |
| TelemetryDuplicates.AppliedAtMostOnce | internal/dbgen/telemetry.sql.go:25-38 | a message is applied at most once, however often it is sent and for whichever assets |
| TelemetryDuplicates.DuplicateOfAnother | internal/telemetry/service.go:95-103 | a duplicate is only reported when another handler of the same message came before, and of all handlers of one message at most one succeeds |
| TelemetryDuplicates.MessageCanBeLost | internal/telemetry/service.go:95-103 | a run in which a message sent twice is never applied |
| TelemetryResults.KinematicsUseThePredecessor | internal/telemetry/service.go:189-208 | unreported speed and heading are derived from the immediate predecessor state |
| TelemetryResults.ConnectionChangesFold | internal/telemetry/service.go:159-166 | folding published connection changes from unknown gives the stored state if and only if the newest change's reply was not lost or the last change lost went back to the state the first one lost had left, and each is a change |
| TelemetryResults.ChangeCanGoUnheard | internal/telemetry/service.go:159-166 | a run in which a connection change is stored and never published |
| TelemetryService.Repository.UpsertAssetState | internal/dbgen/assets.sql.go:417-448 | the conditional upsert and what an absent value keeps |
| TelemetryService.Repository.DeriveKinematics | internal/telemetry/service.go:189-208 | missing speed and heading are filled in exactly where the predecessor allows it |
| TelemetryService.Repository.Ingest | internal/telemetry/service.go:56-182 | under every schedule the call ends where the same turns take the transition system |
| TelemetryRefinement.HandlersRunTheMethod | internal/telemetry/service.go:56-182 | every handler in every interleaving behaves as the method does under some schedule |
| Freshness.Normalize | internal/platform/freshness/freshness.go:108-129 | the repair field by field gives the specified policy, wrap-around included |
| Freshness.NormalizedIsIdempotent | internal/platform/freshness/freshness.go:108-129 | normalizing twice is normalizing once for every policy |
| Freshness.IncreasingExactlyWhen | internal/platform/freshness/freshness.go:105-129 | exactly when the repaired thresholds are strictly increasing |
| Freshness.OrdinaryThresholdsIncrease | internal/platform/freshness/freshness.go:105-129 | they are from 4ns to a sixth of the greatest duration |
| Freshness.RepairKeepsWhatFits | internal/platform/freshness/freshness.go:97-129 | thresholds in order are kept, and what a missing or misplaced one is replaced by |
| Freshness.BandsReachableExactlyWhenIncreasing | internal/platform/freshness/freshness.go:183-201 | every band can be reached exactly when they are |
| Freshness.AgeNeverImproves | internal/platform/freshness/freshness.go:183-201 | a growing age never looks better, whatever the policy |
| Freshness.BandsAreExact | internal/platform/freshness/freshness.go:183-201 | the limits of each band, whatever the policy |
| Freshness.SignalsAreBanded | internal/platform/freshness/freshness.go:156-201 | with thresholds in order, exactly which signals are classified as what: a declared loss first, then a missing report, then the age |
| Freshness.TrustEndsWithStaleness | internal/platform/freshness/freshness.go:78-83 | a state is trustworthy exactly until it is stale |
| Freshness.SilenceNeverImproves | internal/platform/freshness/freshness.go:156-181 | without a report no classification improves, a declared loss always shows, and a future timestamp is never live |
| FreshnessMonitor.SplitUndoesJoin | internal/telemetry/freshness_monitor.go:129-155 | splitting an entity key gives back type and identifier, whatever the identifier |
| FreshnessMonitor.KeyIsTrimmed | internal/platform/observability/metrics.go:278-282 | trimming changes a key exactly when its identifier ends in white space |
| FreshnessMonitor.TrimmingTrims | internal/assets/domain.go:60-61 | identifiers are stored trimmed |
| FreshnessMonitor.StoredKeyIsTrimmed | internal/platform/observability/metrics.go:278-282 | the gauge's trimming never changes the key of a stored identifier |
| FreshnessMonitor.Metrics.ObserveStaleEntity | internal/platform/observability/metrics.go:278-299 | the gauge always equals the size of the stale set |
| FreshnessMonitor.ClassifiedEach | internal/telemetry/freshness_monitor.go:77-103 | a pass is over exactly the entities read, each classified by the last of its rows |
| FreshnessMonitor.Monitor.Reconcile | internal/telemetry/freshness_monitor.go:77-124 | the published log folds to the new snapshot, with vanished entities unknown; every new event is a change or a vanishing |
| FreshnessMonitor.Monitor.TelemetryAccepted | internal/platform/observability/metrics.go:149-157 | accepted telemetry takes exactly its trimmed bare identifier out of the stale set, never the asset's own key, and nothing when there is no colon in it |
| FreshnessMonitor.IdentifierCollides | internal/platform/observability/metrics.go:149-157 | an asset whose telemetry takes another one out of the stale set |
| FreshnessMonitor.WhatTheMonitorShows | internal/telemetry/freshness_monitor.go:103-122 | present entities fold to the snapshot and are in the stale set exactly when untrustworthy and not cleared since; vanished ones stay in it until cleared |

## Left out

- HTTP handlers, access control, the WebSocket hub, logging, tracing, configuration and the operator interface: no state worth a proof.
- Database snapshots, advisory-lock timing and LIKE wildcards: a statement or a transaction is one step, and LIKE prefix is plain prefix.
- NaN, infinities and rounding of floating point: reals stand for speeds, coordinates, distances and virtual time; jitter is left out.
- Error texts, payloads, alert wording, `lastAction`, `actionError`, progress reports and the persisted cursor: they decide nothing that is modelled.
- Timeouts of persistence calls: they are among the ways a call can fail.
- Area observations and area alerts: they return before the track pipeline, and their deduplication is that of breaches with another key.
- Incident and mission transition tables, and the table of command issue times in the metrics: plain storage.
- EngineClosedRun.PacingIndependence: closed runs are those whose batches are issued one after the other from inside the running action and whose persistence succeeds, since a failure changes what is scheduled.
- EngineRun.ScenarioRun.Run: the loop is given a bounded number of looks at the clock; when they are used up it may still be waiting. The actions themselves are represented by the injections they make and their effect on tracked commands.
- Engine.Engine.TakeCommands: the calls that fail each taken command are not modelled; whether they succeed changes nothing in the engine.
- TrackResults.Ownership: relies, as the code's comment does, on the unique index over the initial observation.
- TrackResults.ReplayAgreesWithLive: for one track; the scope prefix and the join with the track row only filter.
- TelemetryService.Repository.Ingest: validation, the check that the asset exists, health and the position and receipt events are left out.
- GeofenceStates.Table.Reconcile: the order of the returned rows by identifier is not modelled.
- ContainmentService.HandleTrackUpdated: other handlers do not interleave with the method; they do in `Containment`.
- RunSupervisor.Supervisor.Close: waits a given number of rounds; running out of them stands for the caller's context ending.
- Timeline.Build: actions carry time, number and name; the closures that emit them, and the positions they carry, are left out.
- FreshnessMonitor.Monitor.Reconcile: ticks follow one another; two overlapping calls are not modelled. Status strings come trimmed and in lower case, identifiers as they are stored: trimmed.
