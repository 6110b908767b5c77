# Verification of the gossm session manager

A Dafny 4.11 model of the parts of gossm in which several goroutines, or several layers of input,
interact, and machine-checked theorems about them. `dafny verify dfyconfig.toml` checks everything.

## What is modelled

**The session lifecycle** (`internal/session/manager.go`). A session is driven at the same time by
monitors that wait for its subprocesses, a liveness prober, a reconnect loop, a poller of external
PIDs, and by stop, reconnect and remove calls. `Lifecycle` models one session as a labelled
transition system: the fields guarded by the manager's mutex, every subprocess ever started for the
session, every `waitDone` channel, and a bag of goroutines with program counters and local
variables. Each `Lock`..`Unlock` section is one step; `Wait`, `close`, `cancel`, kill, process start,
emit and the spawning of a monitor or prober are steps of their own. A start may fail, a subprocess
may exit at any moment after it was started, a probe may say anything, and the two five-second
timeouts may fire whenever there is something to wait for. `Manager` puts any number of sessions
side by side.

The critical sections are functions in `Sections`; `SessionRecords.SessionRecord` has the same
sections as methods that update the fields in place. `Runtime` executes whole schedules in place, on
one session record that all goroutines update, and proves that this is a run of the transition system.
`Tallies` counts the goroutines that play a given part ("will wait for subprocess p", "is about to
cancel p", "still owes an event"); `Invariant` and `Preservation` prove the inductive invariant
goroutine by goroutine and by bookkeeping on these counts. `Theorems`, `StopFinal` and `Cycle` hold
what is true of every run, `Disposal`, `Channels`, `ExitReports`, `Probing`, `LoopDecisions` and
`Outsiders` what each kind of goroutine does to its session and subprocess in every run. Where a
plausible claim is not, `Drive` has schedules that bring one goroutine to where it decides something,
and `StopExact`, `StopSticks`, `GiveUp`, `Errored`, `OldMonitors` and `Stalls` prove exactly when the
claim holds; `ConcreteRuns` has runs that show it fail under every reconnect policy. What the counters
of a session mean is defined in `Accounting` from the log of a run alone.

**The event path** (`emit`, `internal/web/sse.go`, the loop of `handleEvents`). Two bounded queues
that drop when full, a broker, and one handler per browser. `Events` is the protocol, `EventOrder`,
`EventRoom`, `EventSince` and `EventDrain` the results, `Broker` the broker's methods in place and the
proof that the protocol's single sends add up to one fan-out.

**Sequential cores.** Traffic accounting and the history ring buffer (`Totals`, `History`), the
dashboard's split and statistics (`Dashboard`), the reconnect delay in 64-bit arithmetic
(`Backoff`), the layered configuration (`Settings`, `Fields`, `Config`, `TopLayer`), the
filter-and-select prompt (`Prompt`).

## Where the code and its documentation disagree

The model follows the code. In each case there is a run that shows the disagreement and the exact
condition under which the documented behaviour holds.

- `internal/session/manager.go:271-274` says that a monitor of a replaced subprocess exits without
  disturbing the new state. It can: the loop stops waiting for it after five seconds, and a monitor
  that reports later takes the running session to Stalled (`ConcreteRuns.OldMonitorCanDisturb`). The
  report is harmless if and only if the state is Reconnecting or Stalled, and a respawn is safe from
  old monitors if and only if they have all reported by then (`OldMonitors.OldReportHarmlessExactly`,
  `OldMonitors.RespawnUndisturbedExactly`, `OldMonitors.OldHarmlessExactly`).
- `internal/session/manager.go:722-725` assumes that the old subprocess was reaped before the loop
  checks its header, so that the loop must record the stop. If the old monitor has not reported yet,
  it finds Stopped instead of Stopping, falls through and restarts the session:
  `ConcreteRuns.StopCanBeUndone` is such a run, and `StopExact.StopStandsExactly` gives the exact
  condition under which a stop stands.
- `StopSession` writes Stopping even if nobody is left to turn it into Stopped. A shell whose exit
  is on record, an external session, or a tunnel that was given up on and whose monitor has reported,
  then stays Stopping, and counts as active (`StopSticks.StopAfterExitSticks`,
  `ConcreteRuns.StoppedTunnelCanStick`, `StopSticks.StopSticksExactly`, `StopSticks.SticksExactly`).
  `handleTerminalWS` makes this call after every shell that ends by itself
  (`internal/web/terminal_unix.go:67-70`).
- A session can be given up as Errored, which the dashboard lists as stopped, while its last
  subprocess is live (`ConcreteRuns.ErroredCanHoldLiveSubprocess`): if and only if the last attempt
  did install one and nobody has cancelled or reaped it (`GiveUp.GiveUpCleanExactly`). Nor is Errored
  terminal; `Errored.ErroredStandsExactly` says when it is.
- `src/docs/modules/ROOT/pages/port-forwarding.adoc:160` says that a run of failures as long as the
  threshold makes a session Stalled. The first failed probe does (`internal/session/manager.go:653-655`,
  `Stalls.FirstFailureStalls`), so the rule holds if and only if the threshold is one
  (`Stalls.StallsAtThresholdExactly`); the threshold decides about the reconnect
  (`Theorems.ProbeTriggersExactly`).
- A browser can be sent an event emitted before it subscribed (`EventSince.OlderEventDelivered`); it
  cannot if and only if nothing was under way when it subscribed, or the broker had stopped
  (`EventSince.OlderNeverDeliveredExactly`).
- `reconnectBackoff` yields a negative delay for settings beyond some 146 years
  (`Backoff.OverflowExample`); `Backoff.BackoffCorrectExactly` gives the exact settings for which the
  documented sequence holds, and `Backoff.NeverAboveDelay` shows that no setting makes a delay longer
  than documented.

## Model

| member | source | states |
|---|---|---|
| Preservation.Reachable | internal/session/manager.go:184-377 | every state reachable by any interleaving from StartSession, AdoptSession or RegisterExternal satisfies the invariant from which the results below follow |
| Theorems.AtMostOneLive | internal/session/manager.go:748-830 | after any run at most one subprocess of the session is neither cancelled nor reaped |
| Theorems.StopLeavesNoOrphan | internal/session/manager.go:342-377 | if a Stopping or Stopped session's installed subprocess is still live, some stop call is between its unlock and its cancel of exactly that subprocess |
| Theorems.NothingLivesAfterStop | internal/session/manager.go:791-809 | in a Stopping or Stopped session with no stop call before its cancel and no loop, every subprocess ever started is cancelled or reaped |
| Disposal.StopDisposes | internal/session/manager.go:359-376 | when a stop call returns, the subprocess it found installed is cancelled, and killed or already reaped; a call that saw the exit kills nothing |
| Disposal.LoopDisposes | internal/session/manager.go:759-772 | a loop goes on to its replacement only when the old subprocess is cancelled, and killed or reaped; it kills only after the timeout |
| Disposal.OldDisposedFirst | internal/session/manager.go:759-794 | in no reachable state is a replacement being started or installed while the installed subprocess is neither killed nor reaped |
| Disposal.ReplacedAreDisposed | internal/session/manager.go:759-812 | in every reachable state every subprocess but the installed one, and one in a loop's hands, is cancelled, and killed or reaped |
| Disposal.ReapedAndClosed | internal/session/manager.go:275-277 | in every reachable state a subprocess whose Wait returned has exited, and one whose channel is closed was reaped |
| Theorems.ReapedExactlyOnce | internal/session/manager.go:794-822 | every subprocess is waited for at most once; until then exactly one goroutine, its monitor or the loop holding it, will do so |
| Theorems.DoneChannelsSafe | internal/session/manager.go:275-277 | every waitDone channel is closed at most once, by the monitor of its own subprocess, after that was reaped; a close never hits a closed channel |
| Channels.AwaitedIsClosedOrManned | internal/session/manager.go:275-277 | a stop call or loop waits only for a channel that is closed or that a goroutine is bound to close, never for one that was forgotten |
| ExitReports.ReportsExactly | internal/session/manager.go:275-316 | in every run, what a monitor's report makes of the session in each state, given what Wait returned for its own subprocess; only a report that stalls asks for a reconnect |
| ExitReports.ShellEndsExactly | internal/session/manager.go:293-305 | a shell nobody stopped is Running until its monitor has reported, then Errored if Wait returned an error and Stopped if not |
| Theorems.InFlightFlagsExact | internal/session/manager.go:546-561 | each in-flight flag holds if and only if a goroutine of its kind is there, and there is never a second one |
| Theorems.NeverStrandedReconnecting | internal/session/manager.go:713-832 | a registered session is Reconnecting only while a loop that is not yet leaving works on it |
| Theorems.LoopExitsDecided | internal/session/manager.go:720-830 | when a loop stops working on a session, that is Running, Stopped, Errored or not registered |
| LoopDecisions.HeaderDecides | internal/session/manager.go:720-757 | at its header a loop records an unrecorded stop, leaves a stopped or removed session alone, begins an attempt if fewer than the maximum were begun since the last reset, and gives up otherwise |
| LoopDecisions.TriggerDecides | internal/session/manager.go:689-706 | a trigger hands over to a loop if and only if the session may be reconnected and no loop is at work; a manual one clears the attempts |
| LoopDecisions.InstallsExactly | internal/session/manager.go:794-819 | a fresh subprocess is installed if and only if the session is registered and not stopping or stopped; then it is live and the session Running on it, else the session keeps its handles and stays stopped or removed |
| LoopDecisions.RespawnIsWatched | internal/session/manager.go:820-829 | an installed subprocess gets its own monitor, and the loop goes on to spawn a prober |
| Theorems.EveryChangeAnnounced | internal/session/manager.go:308-313 | after any change of state or registration, other than to Stopping, some goroutine still owes an event until one was emitted |
| Theorems.ChangeIsOwed | internal/session/manager.go:284-313 | the goroutine that changes the state, other than to Stopping, or the registration, emits an event next |
| Theorems.StartIsOwed | internal/session/manager.go:213-219 | a new session has a goroutine that still has to announce it |
| Theorems.RespawnsAccounted | internal/session/manager.go:665-697 | ReconnectAttempts is the number of attempts begun since the last reset and never above the maximum; a whole run has at most max * (1 + resets) attempts |
| Theorems.GivesUpAfterMax | internal/session/manager.go:738-747 | whenever in a run a loop gave up, exactly max attempts had been begun since the last reset |
| Theorems.ProbeThreshold | internal/session/manager.go:650-682 | consecutiveFailures is the length of the trailing run of counted failures since the last success or install; no probe ever triggered on a shorter run than the threshold |
| Theorems.ProbeTriggersExactly | internal/session/manager.go:652-664 | a counted failed probe asks for a reconnect if and only if the session is reconnectable and the run of failures has reached the threshold |
| Probing.ProbeExactly | internal/session/manager.go:636-674 | whatever a probe says: the prober leaves if and only if the session is not registered or is Stopping, Stopped or Errored; a counted success makes it Running and resets both counts, a counted failure makes it Stalled and adds one, any other result changes nothing |
| Probing.ProbingGoesOn | internal/session/manager.go:569-595 | a prober whose session was not over can always come to its next result, and that can be either |
| Probing.TunnelsAreProbed | internal/session/manager.go:223-226 | a tunnel comes with a prober that can get a first result, whether it was started or registered as external |
| Theorems.KindsConfined | internal/session/manager.go:239-438 | sessions that are not reconnectable are never respawned and never Reconnecting; shells and externals stay within their own states; no session is ever Starting |
| Theorems.RespawnsUseOriginalOptions | internal/session/manager.go:853-865 | every subprocess ever started for a session got the options of StartSession: the fields copied into the session (191-205) and back give the same options |
| Theorems.IdentityKept | internal/session/manager.go:191-438 | in every run a session keeps the instance, profile, type, ports and host of its options; an adopted one is a shell without ports; only a started port forward is reconnectable |
| Outsiders.RemovalIsFinal | internal/session/manager.go:441-448 | a step unregisters a session if and only if it is a removal's, and then for good |
| Outsiders.ExternalDeath | internal/session/manager.go:318-340 | the poller of an external session polls until it has its answer; a death then takes a Running session to Stopped and touches no other state |
| StopFinal.StopIsFinal | internal/session/manager.go:720-809 | once all monitors have reported, nothing takes a stopping or stopped session out of these two states or installs a subprocess |
| StopFinal.OnlyFallThroughLeavesStop | internal/session/manager.go:306-309 | in any run the only step that leaves the stop states is a monitor's fall-through in a Stopped reconnectable session, and it leads to Stalled |
| StopExact.StopStandsExactly | internal/session/manager.go:275-316 | in every reachable stop state the stop stands, whatever happens, if and only if the session is not reconnectable, all its monitors have reported, or it was removed while Stopping and one monitor's report is all that is still to come |
| StopExact.PendingCanLeave | internal/session/manager.go:720-733 | from every state with a monitor still to report there is a run that takes the stopped session to Stalled |
| StopSticks.SticksExactly | internal/session/manager.go:286-316 | a Stopping session of any kind, left alone, stays so for ever if and only if no monitor has still to report, no loop will look at it and no trigger is under way; calls do not help either if and only if, besides, it is removed or not reconnectable |
| StopSticks.StopSticksExactly | internal/session/manager.go:342-377 | a stop request is never recorded, unless a further call is made, if and only if nobody attends to the session when the request enters its critical section |
| StopSticks.StopAfterExitSticks | internal/session/manager.go:344-357 | stopping a shell whose exit is on record, or an external session, leaves it Stopping and active for ever |
| ConcreteRuns.StopCanBeUndone | internal/session/manager.go:720-733 | under every policy, a run in which a completed, recorded stop is undone with no further call: the session ends Running with a live subprocess |
| ConcreteRuns.OldMonitorCanDisturb | internal/session/manager.go:271-316 | under every policy, a run in which the monitor of a replaced subprocess stalls a session whose new subprocess is live |
| OldMonitors.OldReportHarmlessExactly | internal/session/manager.go:279-309 | the report of a replaced subprocess's monitor leaves the state alone if and only if that is Reconnecting or Stalled |
| OldMonitors.RespawnUndisturbedExactly | internal/session/manager.go:794-822 | from an installation to the next respawn no older monitor can change the state, whatever happens, if and only if all older monitors have reported at the installation |
| OldMonitors.OldHarmlessExactly | internal/session/manager.go:271-316 | the same from any reachable state on: no older monitor pending, or the session removed while Reconnecting or Stalled |
| ConcreteRuns.ErroredCanHoldLiveSubprocess | internal/session/manager.go:738-747 | under every policy, a run that ends Errored with the last respawn still live |
| ConcreteRuns.StoppedTunnelCanStick | internal/session/manager.go:342-377 | under every policy, a run that gives a tunnel up so that a stop of it leaves it Stopping for good, unless a further call is made |
| GiveUp.GiveUpCleanExactly | internal/session/manager.go:738-756 | giving up leaves the installed subprocess live if and only if the last attempt begun did install one that is neither cancelled nor reaped |
| GiveUp.CycleGivesUpClean | internal/session/manager.go:720-789 | a loop back at its header after an attempt of its own never has a live installed subprocess |
| Errored.ErroredStandsExactly | internal/session/manager.go:306-316 | left alone, an Errored session stays so for ever if and only if its monitors have reported and no stop call, manual reconnect or, with attempts left, loop or trigger is under way; calls do not change it either if and only if its monitors have reported and it was removed |
| Errored.LiveErroredCanStall | internal/session/manager.go:306-309 | from every Errored state with a live installed subprocess there is a run, without further calls, to Stalled |
| Stalls.FirstFailureStalls | internal/session/manager.go:652-657 | in every run, a probe that stalls a running session does so after exactly one failure |
| Stalls.StallsAtThresholdExactly | internal/session/manager.go:650-664 | that no probe stalls a running session before the threshold is reached holds for a policy if and only if its threshold is one |
| Cycle.CycleEnds | internal/session/manager.go:720-789 | for all positive settings: a reconnect cycle without a reset makes at most max - attempts + 1 header checks and sleeps no longer than the documented delays of the attempts left |
| CycleExact.CycleSleepsExactly | internal/session/manager.go:720-789 | for settings with the documented delays: between two visits to its header a loop checks it once for each attempt and sleeps exactly the documented delay after each failure |
| Backoff.ReconnectBackoff | internal/session/manager.go:836-851 | the loop's result, wrap-around included, is the specified value, at most max, and the documented delay for every safe setting and any attempt number |
| Backoff.BackoffCorrectExactly | internal/session/manager.go:834-851 | for positive settings every attempt gets min(max, initial * 2^(n-1)) if and only if doubling reaches max before it leaves 64 bits |
| Backoff.NeverAboveDelay | internal/session/manager.go:836-851 | for all positive settings and attempts the computed delay, wrap-around included, is at most the documented one |
| Backoff.SmallIsSafe | internal/session/manager.go:836-851 | settings with initial below 2^62 and max at most 2^62 are safe |
| Backoff.OverflowExample | internal/session/manager.go:840-846 | an initial delay of 2^62 wraps to a negative one at the second attempt |
| Backoff.DelayMonotone | internal/session/manager.go:708-712 | the documented delay never decreases from one attempt to the next |
| Manager.EachSessionRunsAlone | internal/session/manager.go:54-77 | in a manager of any number of sessions each one makes a run of its own, so every result above holds for each |
| Manager.LiveProcessesBounded | internal/session/manager.go:182-230 | all sessions together never have more live subprocesses than sessions were registered |
| Runtime.Execution.Run | internal/session/manager.go:275-377 | executing any schedule in place on the session record, with every goroutine's sections, signals and spawns, ends in the state of a run of the transition system, and keeps the invariant |
| EventOrder.NoLostRefresh | internal/web/handlers.go:391-403 | while the broker runs, a client whose last snapshot predates an emission attempted since it subscribed has an event coming that causes a newer snapshot, however many were dropped |
| EventOrder.ChannelsSafe | internal/web/sse.go:30-67 | in no interleaving is anything sent on a closed channel or a channel closed twice; the buffers hold at most 64 and 16 events |
| EventRoom.EmitQueuesExactly | internal/session/manager.go:530-535 | below 64 queued events an emission is queued behind them, at 64 it is lost |
| EventRoom.SendQueuesExactly | internal/web/sse.go:39-46 | below 16 waiting events a client gets the one it is offered behind them, at 16 it misses it; no other client is touched |
| EventRoom.LossesExactly | internal/web/sse.go:39-46 | in every run the events lost at each queue are exactly as many as emissions or sends that met it full |
| EventRoom.CompleteUnlessFull | internal/web/sse.go:30-59 | if no emission and no send to the client met a full queue, the client has every event fanned out since its start, none missing |
| EventOrder.DeliveredInOrder | internal/web/sse.go:39-47 | a client receives accepted events in order of emission from its start on; received, waiting and missed events add up to those fanned out since |
| EventOrder.CompleteIfNothingDropped | internal/web/sse.go:40-46 | if neither queue dropped anything a client has every fanned-out event since its start, which includes all emitted since it subscribed |
| EventSince.OlderNeverDeliveredExactly | internal/web/sse.go:53-59 | whatever happens after it subscribed, a client is never sent an event from before, if and only if at that moment the source queue is empty and the broker has no event in hand, or the broker has stopped |
| EventSince.OlderEventDelivered | internal/web/sse.go:53-59 | a run in which a client receives an event emitted before it subscribed |
| EventDrain.DrainBounded | internal/web/sse.go:30-50 | left to themselves the broker and the handlers take no more steps than the events in flight account for |
| EventDrain.AtRestAllFresh | internal/web/handlers.go:391-403 | when they have come to rest every served client's snapshot is newer than the last attempted emission |
| Broker.SSEBroker.FanOut | internal/web/sse.go:39-47 | one pass, in whatever order, appends the event to every client that has fewer than 16 waiting, and changes nothing else |
| Broker.SSEBroker.Unsubscribe | internal/web/sse.go:62-67 | the client leaves the map first, then its channel is closed; no other client is touched |
| Broker.FanOutCompletes | internal/web/sse.go:35-47 | whenever the broker holds an event, the protocol's single sends can complete exactly the fan-out of that event |
| History.SessionManager.RecordHistoryPoint | internal/session/manager.go:469-488 | appends the sample of the active sessions by type, whatever the map order, and the pending traffic; the ring stays the window on all samples and no byte is lost |
| History.SessionManager.GetHistory | internal/session/manager.go:458-465 | sixty points: the last sixty samples, oldest first, preceded by zeros if there were fewer |
| History.WindowAt | internal/session/manager.go:457-465 | entry k of the window is the sample recorded 60 - k calls ago, or zero if there were fewer |
| History.RingShifts | internal/session/manager.go:486-487 | for every wrap position, overwriting the oldest slot and advancing the index drops the oldest sample and appends the new one |
| History.SessionManager.AddTraffic | internal/session/manager.go:493-505 | adds to exactly one registered session, to its entry in the ledger and to the pending counters, ignores unknown ids, and keeps sampled plus pending bytes equal to those of all sessions ever registered |
| History.SessionManager.RemoveSession | internal/session/manager.go:442-448 | forgets the session but none of its bytes |
| History.SessionManager.CountActive | internal/session/manager.go:474-484 | counts the active sessions of each type, in whatever order the map is visited |
| Totals.OneMoreActive | internal/session/manager.go:474-484 | visiting one more session counts one more for its type if it is active, and nothing else |
| Dashboard.SplitSessions | internal/web/handlers.go:53-62 | splits a snapshot into active and stopped sessions, nothing lost or repeated, each list in the order of the snapshot |
| Dashboard.BuildDashboardStats | internal/web/handlers.go:66-97 | every counter counts its sessions; the active states add up to Active, Active, Errored and Stopped to Total, and so do the two types |
| Dashboard.SampleAgreesWithDashboard | internal/web/handlers.go:53-97 | for one state of the registry a sample's shells plus tunnels equal the dashboard's Active count and the length of its active list, for every map order |
| Config.Load | internal/config/config.go:66-82 | every field has its last valid assignment in the topmost layer that gives it one, else the default; the preset list is as long as the largest valid index mentioned; all probe and reconnect settings are positive |
| TopLayer.VariableDecides | internal/config/config.go:212-274 | a variable that is set decides the setting of its name, whatever the files say |
| TopLayer.LastPresetVariableDecides | internal/config/config.go:260-266 | the last preset variable of the environment decides its field |
| TopLayer.LastDotEnvLineDecides | internal/config/config.go:66-82 | the last line of .env decides its fields unless the environment says something of them |
| TopLayer.LastFileLineDecides | internal/config/config.go:66-82 | the last line of the configuration file decides its fields unless .env or the environment says something of them |
| TopLayer.NothingSetKeepsDefaults | internal/config/config.go:47-62 | with nothing set every field has its documented default |
| TopLayer.LineRoundTrip | internal/config/config.go:94-105 | a line written as key, equals sign and value is read as that assignment, unless it is a comment |
| TopLayer.LineIgnoredExactly | internal/config/config.go:94-105 | a line is passed over if and only if it is blank, a comment, or has no equals sign |
| TopLayer.VariableRoundTrip | internal/config/config.go:252-266 | a preset variable written as name, equals sign and value is read as that assignment |
| Config.LoadedUnique | internal/config/config.go:212-274 | the loaded configuration is determined by the sources, so not by the iteration order over the setters |
| Config.LoadedPositive | internal/config/config.go:136-159 | no assignment in any layer makes a probe, threshold or backoff setting zero or negative |
| Config.LastValidWins | internal/config/config.go:122-164 | within a layer the value found is that of the last assignment valid for the field |
| Config.NoneValidKeeps | internal/config/config.go:122-164 | invalid and foreign assignments leave a field as the layers below set it |
| Config.LargestIsMaximum | internal/config/config.go:183-186 | the preset count is an upper bound of all indices mentioned and one of them |
| Config.Config.ApplyKeyValue | internal/config/config.go:122-210 | for each of the ten keys and eight preset fields, by name: the value of that field afterwards in terms of the text and its integer or duration, all other fields as before |
| Config.Config.ApplyPresetKey | internal/config/config.go:167-210 | writes exactly the named field of the named preset; a valid index makes room even for an unknown field |
| Config.Config.LoadKeyValueFile | internal/config/config.go:85-107 | after a file every field holds its last valid assignment in it, or what it held before |
| Config.Config.ApplyEnv | internal/config/config.go:213-274 | after the environment layer every field holds its valid non-empty variable or last preset variable, or what it held before |
| Config.QuotesRoundTrip | internal/config/config.go:111-119 | quoting any text, quotes included, and reading it back gives the text |
| Settings.Cut | internal/config/config.go:98-101 | splits at the first separator: both parts and the separator give the text back, and the first part has no separator |
| Settings.SameFieldsSame | internal/config/config.go:27-45 | two configurations with equal fields and as many presets are equal |
| Prompt.SelectFromList | internal/aws/prompt.go:64-99 | for every input, every list shown is the listing of the filter in effect, and the first line that answers its prompt decides the outcome: the num-th entry shown, an exit, or the end of input |
| Prompt.SelectionIsVisible | internal/aws/prompt.go:84-89 | a returned index is in range, passes the filter in effect, and is the num-th one shown |
| Prompt.AnswersExactly | internal/aws/prompt.go:19-36 | a line answers a prompt if and only if it is q or e in either case, or a number from 1 up to the length of the list; then that entry is selected |
| Prompt.EveryEntrySelectable | internal/aws/prompt.go:84-89 | every name that passes the filter in effect has exactly one number, and that selects it |
| Prompt.FilterIndices | internal/aws/prompt.go:40-56 | computes the listing of a filter |
| Prompt.ListingExact | internal/aws/prompt.go:38-56 | a listing is strictly increasing and has exactly the names that contain the filter regardless of case |
| Prompt.FilterExact | internal/aws/prompt.go:38-56 | a name is listed if and only if the filter is empty or, both in lower case, the name is the filter with something, or nothing, on either side |
| Prompt.VisibleStep | internal/aws/prompt.go:78-97 | how a reset, a filter with or without a match, and any other line change the list shown |
| Prompt.NeverEmpty | internal/aws/prompt.go:90-96 | while there is something to choose from the list shown is never empty |

## Left out

- Processes, PTYs, sockets, HTTP, WebSockets, templates and the AWS SDK: a subprocess is its start, exit, cancel, kill and reap; a probe is its result.
- `LastError`, `PID`, timestamps and the per-session probe interval: they decide nothing in the protocol.
- `StartSession` publishes a session before it spawns its monitor; the model does both in one step, as `AdoptSession` effectively does.
- UUIDs are taken to be distinct, and session ids are numbers.
- The reconnect policy is fixed during a run and its four knobs are positive, as `SetReconnectPolicy` leaves them.
- Liveness of the session lifecycle: a trigger that arrives between a loop's last unlock and its clearing of the flag is dropped, so a Stalled session need not be retried.
- History.SessionManager.AddTraffic: byte counters are unbounded; the 64-bit ones of the code agree modulo 2^64.
- Broker.SSEBroker.Unsubscribe: its contract is that of an undisturbed call; what the broker does between the removal and the close is interleaved in `Events`.
- Config.Load: Go's upper-casing, trimming, integer and duration parsing are parameters; the scanner's line limit, path cleaning and the link between the environment listing and the named variables are not modelled.
- Prompt.SelectFromList: an input error and the end of input are the same outcome, and Go's trimming, lower-casing and integer parsing are parameters.
- `Daemon.Stop` and `SessionManager.Close` under concurrent callers: their check and close of a channel are not locked.
- PID file locking, token and origin checks, IPC, charts, formatting and command-line building.
