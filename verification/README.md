# Device standby: a verified model

This project models four parts of the device standby service and proves how they stay consistent
with each other.

* **The standby state machine.** `StandbyMachine` is the state manager with its five states, the
  constraint manager, the timers and the handler queue, as one transition function. The class in
  `StateManagerAdapter.dfy` updates the same fields in place and is proved equal to it, method by
  method. `StandbyInvariant`, `StandbyLog`, `StandbyDelivery` and `StandbyLock` show what every step
  keeps; `StandbyOutcomes`, `StandbyTimers` and `StandbyHold` say where steps lead, what entries
  arm, and that a held SLEEP lasts; `StandbyRuns` draws the theorems about all runs; `StandbyLeak`
  shows that the one condition used there is exact, unless a second report that the user is awake is
  waiting. `ConstraintTable` covers the packed key of the constraint table.
* **The restriction strategies.** `RunningLockRules` and `NetworkRules` are the two strategies on
  values, with the power manager as a set of (pid, uid) and the net manager as a trust list and a
  policy bit. The `Proofs` files show that the incrementally edited ledgers equal the sets computed
  from the tables; `RunningLockSurvey` and the end of `NetworkProofs` say whom a rebuild restricts
  or trusts without mentioning tables or flags. `TaskMarks` says what each message does to each
  mark. The `Strategy` files are the loops in place.
* **The whole service.** `StandbySystem` runs machine, dispatcher and both strategies together and
  proves where restrictions can be in force, and `SystemModes` exactly when they are; `SystemLeak`
  and `FirewallRuns` give the runs that show why its assumptions are needed, and how the firewall
  comes on without a survey; `FirewallOrigin` says for all runs when it cannot.
* **The allow store and backups.** `AllowStore`, `AllowProofs`, `AllowRuns`, `AllowListing`,
  `AllowRecords` and `AllowReload` cover records, notices, expiry, listing, the file and restarts;
  `AllowEffects` says what callers get; `AllowService.dfy` and `AllowRecordObject.dfy` are the loops
  in place. `AllowSync`, `AllowMarks` and `JointRuns` run store and service together.
  `BackupFraming` covers the backup buffer.

`dafny verify dfyconfig.toml` checks everything.

## What the proofs found

* The "user awake" event restarts SLEEP while phase tasks are queued. With three or more tasks that
  may complete a phase outstanding and none that leaves SLEEP, the first phase task runs after the
  last phase, takes the standby lock, and nothing gives it back (`StandbyLeak.LeakIsReachable`).
  `StandbyLock.Room` is the exact guard of a restart with no further "user awake" event queued
  behind it (`StandbyLeak.RoomIsExact`); each further event restarts SLEEP again and has a guard of
  its own.
* `UpdateResourceConfig` of the running-lock strategy does not test whether the strategy is
  proxied. A forced sleep interrupted before its first phase, with the switch of day and night in
  between, leaves processes held back in WORKING (`SystemLeak.HeldBackWhileAwake`).
* The network firewall comes on after maintenance even if it had been off: maintenance gives the
  strategy back as it was exactly when the firewall had been on
  (`NetworkProofs.MaintenanceReturnsExactly`). It comes on over the table as it is: the partial one
  after a failed survey (`FirewallRuns.FirewallWithoutSurvey`, any configuration), an empty one when
  forced sleep interrupts the maintenance of NAP (`FirewallRuns.FirewallNeverPrepared`). Only the
  exempt applications in that table are trusted.
  For all runs, an enabled firewall has a surveyed table unless maintenance ends over a table
  without a survey, or a rebuild at the switch of day and night fails
  (`FirewallOrigin.EnabledMeansSurveyed`).
* An application that starts to be tracked by an allow or task message when it is already exempt is
  not trusted (`NetworkProofs.AddNetFlagKeeps`); an allow notice for an untracked application is of
  this kind, because the lookup already finds it allowed (`FirewallRuns.AllowedIsOverlooked`).
  Without such a message the list stays exact (`StandbySystem.TrustIsExact`).
* The network strategy drops an allow notice that arrives during the maintenance of SLEEP; the
  application stays unmarked and untrusted when SLEEP resumes
  (`FirewallRuns.GrantInMaintenanceIsLost`). Apart from that the marks follow the store
  (`JointRuns.NetworkFollowsStore`). The running-lock strategy has no such gap
  (`JointRuns.LocksFollowStore`).
* If night falls before the trust list is rebuilt, an interruption of SLEEP leaves system
  applications with no other mark on it, and nobody else (`NetworkProofs.MaintenanceClearsExactly`,
  with a run in `FirewallRuns.NightfallLeavesTrust`).
* `RecoverTimeLimitedTask` cuts the remaining time to 32 bits, so an entry with 2^31 ms or more left
  loses its sweep at a restart (`AllowReload.LongEntryIsForgotten`). Without a process list at start
  nothing is loaded and the saved records are overwritten by the next change
  (`AllowReload.UnavailableListLosesRecords`).
* The restore loop stops at a header that ends the buffer, so a last module without data is not
  restored (`BackupFraming.BackupRoundTrip`).

## Assumptions

* Firing a timer and posting its task is one step, and starting a timer succeeds. All steps run on
  the handler thread or under one lock, so each is atomic.
* Verdicts of the motion sensors may arrive at any time; sensors, charge, night, delays and the
  answers of other services are inputs of a step. Calls to the power and net managers succeed.
* The announcement posted during initialization is dropped because the service is not ready yet, so
  the log starts empty.
* For the ledger of running locks: a process id is tracked under one key of a uid, and the strategy
  meets the switch of day and night only while proxied (`StandbySystem.LockRegular`). For the trust
  list: the condition does not change between rebuilds (`StandbySystem.Steady`).
  `RestrictionsFollowSleep` uses neither.
* The lists from which the flag of an application seen for the first time is computed are answers
  of a step; the running-lock strategy asks for those of the network strategy, as the source does.
* The uids of process messages are not negative. The running-lock strategy files a created process
  under the unsigned uid (running_lock_strategy.cpp:510-527) and looks it up under the signed one
  (running_lock_strategy.cpp:579-613); the two keys are the same only then.
* For the marks of allowed applications: the lists that a survey or a lookup reads agree with the
  store about the applications they track (`AllowMarks.AnswerAgrees` says when they do; the
  running-lock strategy looks a new application up in the list of the network), and a network notice
  about a tracked uid carries the tracked name and finds the firewall enabled
  (`AllowMarks.NetAttuned`, `AllowMarks.LockAttuned`).
* One clock serves the allow store, and it does not run backwards. The source reads boot time when
  it applies, removes and lists, and monotonic time when it recovers.
* uids are the signed numbers of the messages; their cast to unsigned on the way to the net manager
  is one-to-one. Shifts of allow-type indices above 6 do not occur in masks that pass the service's
  check and are 0 here.
* A record of a listing sweep is captured by the source and read when the sweep runs; runs of the
  store allow such a sweep with any mask (`AllowRuns.ExtraSweep`).

## Main results

Every result below is about all runs or all inputs, or gives a run of the modelled service.

| result | theorem |
|---|---|
| In every reachable state of the whole service the power manager holds back exactly the pids of the tracked applications that are not exempt, and somebody only in SLEEP | `StandbySystem.LedgerIsExact`, needed assumption: `SystemLeak.HeldBackWhileAwake` |
| In every reachable state the trust list is sound, and exact in every run that overlooks nobody | `StandbySystem.TrustIsSound`, `StandbySystem.TrustIsExact`, needed assumptions: `FirewallRuns.NightfallLeavesTrust`, `FirewallRuns.AllowedIsOverlooked` |
| Firewall and proxy are active only in SLEEP and suspended only in MAINTENANCE, with no assumption on the environment | `StandbySystem.RestrictionsFollowSleep` |
| Messages reach the strategies in the state in which they were posted | `StandbySystem.DeliveredStateIsPostedState` |
| Maintenance gives the network strategy back as it was exactly when the firewall had been on; otherwise the firewall comes on without a survey | `NetworkProofs.MaintenanceReturnsExactly`, `FirewallRuns.FirewallWithoutSurvey`, `FirewallRuns.FirewallNeverPrepared`; for all runs `FirewallOrigin.EnabledMeansSurveyed` |
| The standby lock never leaks while every restart of SLEEP has room; the guard is exact | `StandbyRuns.LockNeverLeaks`, `StandbyLeak.RoomIsExact`, `StandbyLeak.LeakIsReachable` |
| Evaluations open and close in pairs; timers and tasks belong to the current state; transitions follow legal edges; waking up is total | `StandbyRuns.EvaluationProtocol`, `StandbyRuns.TimerOwnership`, `StandbyRuns.TransitionsAreLegal`, `StandbyRuns.WakeUpIsTotal` |
| Only a fresh entry starts a state over; between two of them phases, returns and intervals only advance, and the announcements alone decide the interval | `StandbyRuns.FreshEntryRestarts`, `StandbyRuns.PhaseMessagesRise`, `StandbyRuns.LogDecidesInterval`, `StandbyRuns.MaintenanceBackOff` |
| In every run in which surveys succeed, the delivered messages alone decide when proxy and firewall are on, in both directions | `SystemModes.RestrictionsFollowLog` |
| After forced sleep no timer is armed, and SLEEP is not interrupted until it begins again | `StandbyOutcomes.HoldEndsTimers`, `StandbyHold.HoldLasts` |
| Where every verdict, timer and common event leads, and what every entry arms and posts, in every state of the invariant | `StandbyOutcomes.NapVerdict`, `StandbyOutcomes.NapTimer`, `StandbyOutcomes.EventLeads`, `StandbyTimers.EntryArms`, `StandbyTimers.PhaseCompletes` |
| What every message does to every mark of every application, and who is tracked | `TaskMarks.LockMarks`, `TaskMarks.LockTable`, `TaskMarks.NetMarks`, `TaskMarks.NetProcess` |
| An application gets the time it asks for, and a death takes exactly what does not survive it | `AllowEffects.ApplyExactly`, `AllowEffects.DeathExactly` |
| In every run of the allow store mask, list, notices and file agree, and ended entries go | `AllowRuns.StoreIsConsistent`, `AllowRuns.ExpiredEntriesGo`, after a restart `AllowReload.SecondLife` |
| In every run of store and service together, once the notices are delivered, a tracked application is marked as allowed exactly when the store allows it | `JointRuns.NetworkFollowsStore`, `JointRuns.LocksFollowStore`, needed assumption: `FirewallRuns.GrantInMaintenanceIsLost` |
| The listing does not depend on which sweeps have run | `AllowListing.LazyEqualsEager` |
| A backup restores exactly, but for a last module without data | `BackupFraming.BackupRoundTrip`, on any buffer `BackupFraming.RestoreIsSafe` |

## Model

| member | source | states |
|---|---|---|
| `StandbyRuns.EvaluationProtocol` | plugins/standby_state/src/state_manager_adapter.cpp:212-233 | in every reachable state between tasks both managers agree on whether an evaluation is pending; it is pending only in SLEEP or in the last phase of NAP; accepted starts equal verdicts plus cancellations plus the pending one |
| `StandbyRuns.TimerOwnership` | plugins/ext/src/base_state.cpp:148-173 | in every reachable state every armed timer and every queued transit, phase, repeat or screen task belongs to the current state, and both phases stay at or below END |
| `StandbyRuns.HalfHourControl` | plugins/standby_state/src/state_manager_adapter.cpp:349-368 | half-hour control is on only in SLEEP or in the maintenance that interrupts SLEEP |
| `StandbyRuns.MaintenanceReturns` | plugins/standby_state/src/maintenance_state.cpp:26-42 | in MAINTENANCE the next state is the interrupted one, NAP or SLEEP, its timer is armed or its task queued, and running that task returns there with both phases unchanged |
| `StandbyRuns.WakeUpIsTotal` | plugins/standby_state/src/state_manager_adapter.cpp:106-133 | handling SCREEN_ON in any reachable state ends in WORKING with no evaluation, half-hour control, standby lock or timer, and no task but screen checks and messages |
| `StandbyRuns.TransitionsAreLegal` | plugins/standby_state/src/state_manager_adapter.cpp:311-322 | the announcements of a run chain: each starts where the last one ended, along an edge that the state's own check allows; phase messages step by one within the announced state; the last announcement is the current state |
| `StandbyRuns.LinkedAt` | plugins/standby_state/src/state_manager_adapter.cpp:311-322 | any message of a linked log fits the messages before it |
| `StandbyRuns.DarkNeedsCharge` | plugins/standby_state/src/working_state.cpp:66-87 | a step announces WORKING to DARK only when the charge check passed in that step |
| `StandbyRuns.PhaseMessagesRise` | plugins/standby_state/src/sleep_state.cpp:153-188 | in every run that announces no fresh entry of NAP or SLEEP, and does not restart SLEEP on the report that the user is awake, the phase, the returns and the interval of that state never fall, and its phase messages are pairs (p, p+1) with strictly rising p, bounded by END |
| `StandbyRuns.MaintenanceBackOff` | plugins/ext/src/base_state.cpp:235-260 | the indices are the number of returns since the last fresh entry, capped by the list; the k-th return arms the timer with interval min(k, size-1) |
| `StandbyRuns.FreshEntryRestarts` | plugins/standby_state/src/sleep_state.cpp:88-119 | only a fresh entry starts a state over: a step that announces one, or restarts SLEEP for an awake user, leaves the state in its first phase with returns and interval counted anew; every other step leaves phase, returns and interval where they were or further on |
| `StandbyRuns.LogDecidesInterval` | plugins/ext/src/base_state.cpp:235-260 | the interval in use is decided by the announcements alone: it is the number of returns from maintenance announced since the last fresh entry, capped by the list, for NAP in every run and for SLEEP in every run without a report that the user is awake |
| `StandbyRuns.LockNeverLeaks` | plugins/ext/src/base_state.cpp:187-228 | whenever the standby lock is held between tasks, the device is in NAP or SLEEP and an evaluation is pending or a phase task is queued with phases left, if every restart of SLEEP happens with room for it |
| `StandbyLock.NextLock` | plugins/ext/src/base_state.cpp:79-101 | one step keeps the lock invariant, given room at a restart of SLEEP |
| `StandbyLock.RestartLock` | plugins/standby_state/src/state_manager_adapter.cpp:146-152 | restarting SLEEP keeps the lock invariant when a queued task leaves SLEEP first, or fewer than END phase-advancing tasks and evaluations are outstanding |
| `StandbyLeak.RoomIsExact` | plugins/standby_state/src/state_manager_adapter.cpp:146-152 | at a restart of SLEEP with no further report queued that the user is awake, every continuation in which none is handled keeps a releaser for the lock if and only if there is room |
| `StandbyLeak.RestartWithoutRoomLeaks` | plugins/standby_state/src/state_manager_adapter.cpp:146-152 | without that room, whatever else is queued but a further such report, some continuation ends with the lock held and nobody to release it |
| `StandbyLeak.LeakIsReachable` | plugins/standby_state/src/state_manager_adapter.cpp:135-153 | with any configuration a run from initialization reaches such a leaked lock |
| `StandbyInvariant.NextKeeps` | plugins/standby_state/src/state_manager_adapter.cpp:97-133 | every step of the handler or its environment keeps the whole invariant |
| `StandbyInvariant.InitialHolds` | plugins/standby_state/src/state_manager_adapter.cpp:38-77 | initialization establishes it |
| `StandbyInvariant.WakeKeeps` | plugins/standby_state/src/state_manager_adapter.cpp:246-280 | waking up keeps it from inside any task and ends in WORKING without evaluation |
| `StandbyInvariant.StartEvalKeeps` | plugins/standby_state/src/state_manager_adapter.cpp:212-220 | starting an evaluation keeps it, through the synchronous re-entry of the charge check |
| `StandbyInvariant.StateEndEvalKeeps` | plugins/standby_state/src/sleep_state.cpp:153-171 | ending an evaluation in any state keeps it |
| `StandbyInvariant.RunTransitKeeps` | plugins/ext/src/base_state.cpp:79-101 | the task of a transition timer keeps it |
| `StandbyInvariant.TransitInnerKeeps` | plugins/standby_state/src/state_manager_adapter.cpp:311-322 | a legal transition reaches its target with the invariant, the lock released and the log extended |
| `StandbyInvariant.MessagesRemove` | plugins/ext/src/base_state.cpp:163-173 | removing named tasks removes no message |
| `StandbyLog.NextTicks` | plugins/standby_state/src/sleep_state.cpp:173-188 | a step either sends only calm messages and changes phases and returns exactly as its announcements say, or completes exactly one phase and announces exactly that phase; only the report that the user is awake begins SLEEP again without an announcement |
| `StandbyDelivery.NextDone` | services/core/src/standby_service_impl.cpp:1653-1672 | a step delivers the message it takes off the queue and no other |
| `ConstraintTable.HashIsInjective` | plugins/ext/include/base_state.h:51-59 | the packed key of parameters that fit their bits determines the parameters |
| `ConstraintTable.WidePhasesCollide` | plugins/ext/include/base_state.h:51-59 | outside those bits keys collide |
| `ConstraintTable.LookupIsExact` | plugins/extend_constraints/src/constraint_manager_adapter.cpp:28-57 | looking up the packed key finds the constraint registered for exactly these parameters |
| `StandbyOutcomes.NapVerdict` | plugins/standby_state/src/nap_state.cpp:108-119 | in every state of the invariant with a verdict due in the last phase of NAP: a failed one ends in WORKING, a passed one in SLEEP at its first phase, both coming from NAP |
| `StandbyOutcomes.SleepVerdict` | plugins/standby_state/src/sleep_state.cpp:153-171 | a verdict in the last phase of SLEEP wakes the device exactly when it failed and the detection was a repeated one; otherwise phase, queue and timers stay, and the mark of the repeated detection goes |
| `StandbyOutcomes.NapTimer` | plugins/ext/src/base_state.cpp:79-101 | where the timer of NAP leads in every state: to MAINTENANCE; to a block; one phase further; to SLEEP when no motion constraint is registered; or to a motion watch, which blocks NAP when its sensors fail |
| `StandbyOutcomes.DarkTimer` | plugins/ext/src/base_state.cpp:79-101 | the timer of DARK leads to NAP, or to SLEEP when NAP is switched off, unless DARK is blocked |
| `StandbyOutcomes.ScreenCheckLeads` | plugins/standby_state/src/working_state.cpp:35-87 | WORKING is left for DARK exactly with the screen off, no block and no charger; a charger found then blocks WORKING |
| `StandbyOutcomes.EventLeads` | plugins/standby_state/src/state_manager_adapter.cpp:106-153 | the state and the screen after every common event in every state: waking actions, forced sleep, and the check for DARK that follows |
| `StandbyOutcomes.HoldEndsTimers` | plugins/standby_state/src/state_manager_adapter.cpp:459-468 | forced sleep, and sleep reported with the screen off, end in SLEEP with no timer armed; an entry lifts a block |
| `StandbyHold.HoldLasts` | plugins/standby_state/src/state_manager_adapter.cpp:459-468 | a run law: after them no interruption of SLEEP is announced until SLEEP begins again, unless the task of its timer was queued already |
| `StandbyHold.MaintenanceNeedsItsTask` | plugins/ext/src/base_state.cpp:79-101 | no step but the task of a transition timer announces an entry to MAINTENANCE |
| `StandbyTimers.EntryArms` | plugins/standby_state/src/maintenance_state.cpp:26-42 | every entry to every state arms exactly these timers with exactly these delays, and stops all others: the timeout of DARK, the nap timeout within its limit, the interval in turn, and for MAINTENANCE the timeout of NAP or of SLEEP by the state that is interrupted |
| `StandbyTimers.EntryPosts` | plugins/standby_state/src/sleep_state.cpp:88-142 | an entry leaves exactly one task of its own besides messages, a screen check or a first phase, or none, and its announcement comes last |
| `StandbyTimers.HalfHourTimerTurnsOn` | plugins/standby_state/src/state_manager_adapter.cpp:349-368 | the half-hour timer leaves half-hour control on exactly when it was on or the device is in SLEEP or its maintenance, and tells so exactly when it comes on |
| `StandbyTimers.EntryTurnsOn` | plugins/standby_state/src/sleep_state.cpp:88-119 | an entry turns half-hour control on exactly when SLEEP begins afresh with the half hour passed; it sends that message and its announcement and nothing else |
| `StandbyTimers.WakeTells` | plugins/standby_state/src/state_manager_adapter.cpp:268-309 | waking up leaves half-hour control off and tells so exactly when it was on, then tells the way to WORKING, and nothing else |
| `StandbyTimers.InterruptionKeeps` | plugins/standby_state/src/state_manager_adapter.cpp:303-322 | the timers of SLEEP and of MAINTENANCE interrupt and resume with half-hour control and a block as they were, the lock released, and only this told |
| `StandbyTimers.AwakeRestarts` | plugins/standby_state/src/state_manager_adapter.cpp:146-152 | the report that the user is awake begins SLEEP again: from the first phase and the first interval after a fresh entry, with the next interval after maintenance, the repeated detection left armed |
| `StandbyTimers.PhaseCompletes` | plugins/standby_state/src/sleep_state.cpp:173-188 | a phase task completes its phase, tells so, posts the next one until the last, and the last one releases the lock and arms the repeated detection of SLEEP for 600 s if motion is detected at all |
| `StandbyTimers.EarlyVerdict` | plugins/standby_state/src/sleep_state.cpp:153-188 | a verdict that reaches SLEEP before its last phase completes the phase, and tells so only when it passed |
| `StandbyTimers.RepeatDetects` | plugins/standby_state/src/sleep_state.cpp:65-78 | a repeated detection watches motion from now on, blocks SLEEP when the sensors fail, and ends at once without a registered constraint |
| `StandbyTimers.TimerFires` | plugins/ext/src/base_state.cpp:148-161 | a firing timer posts its task last; a transition timer is gone then, the repeated one and all others stay |
| `StandbyTimers.SensorsFail` | plugins/standby_state/src/nap_state.cpp:121-134 | a watch that loses its sensors blocks the state; NAP gives the lock back and heads for MAINTENANCE after its current interval, if there is one |
| `StandbyTimers.BlockedNapHeads` | plugins/standby_state/src/nap_state.cpp:121-134 | a timer task of NAP that meets a block, or whose watch fails, turns NAP towards MAINTENANCE after its current interval |
| `StandbyTimers.OutsideTells` | services/core/src/standby_service_impl.cpp:204-228 | the switch of day and night is told exactly in SLEEP, a message of another component in every state, and neither does anything else |
| `StateManagerAdapters.StateManagerAdapter.constructor` | plugins/standby_state/src/state_manager_adapter.cpp:38-77 | initialization of the managers, the states and the constraint table |
| `StateManagerAdapters.StateManagerAdapter.RegisterConstraint` | plugins/extend_constraints/src/constraint_manager_adapter.cpp:115-119 | the first registration under a key stays |
| `StateManagerAdapters.StateManagerAdapter.RemoveTask` | plugins/ext/src/base_state.cpp:163-173 | drops every queued task with the given name and keeps the order of the rest |
| `StateManagerAdapters.StateManagerAdapter.OnScreenOffHalfHour` | plugins/standby_state/src/state_manager_adapter.cpp:349-368 | switches half-hour control where it may be on, and posts a message when it changed |
| `StateManagerAdapters.StateManagerAdapter.NapMaintTimeout` | plugins/ext/src/base_state.cpp:235-260 | the maintenance interval of NAP with its back-off |
| `StateManagerAdapters.StateManagerAdapter.SleepMaintTimeout` | plugins/ext/src/base_state.cpp:235-260 | the maintenance interval of SLEEP with its back-off |
| `StateManagerAdapters.StateManagerAdapter.BeginNapState` | plugins/standby_state/src/nap_state.cpp:36-69 | begins NAP, afresh or after maintenance |
| `StateManagerAdapters.StateManagerAdapter.BeginMaintenanceState` | plugins/standby_state/src/maintenance_state.cpp:26-42 | begins MAINTENANCE with the way back and its timer |
| `StateManagerAdapters.StateManagerAdapter.BeginSleepState` | plugins/standby_state/src/sleep_state.cpp:88-119 | begins SLEEP, afresh or after maintenance |
| `StateManagerAdapters.StateManagerAdapter.BeginCurrentState` | plugins/standby_state/src/dark_state.cpp:42-49 | begins the current state |
| `StateManagerAdapters.StateManagerAdapter.EndCurrentState` | plugins/standby_state/src/sleep_state.cpp:134-142 | ends the current state: its timers and its named tasks go |
| `StateManagerAdapters.StateManagerAdapter.TransitToStateInner` | plugins/standby_state/src/state_manager_adapter.cpp:311-322 | ends one state, begins the other, announces it and releases the lock |
| `StateManagerAdapters.StateManagerAdapter.StopMonitoring` | plugins/extend_constraints/src/constraint_manager_adapter.cpp:100-113 | the constraint manager drops the running evaluation |
| `StateManagerAdapters.StateManagerAdapter.StopEvalution` | plugins/standby_state/src/state_manager_adapter.cpp:334-340 | a pending evaluation is cancelled on both sides |
| `StateManagerAdapters.StateManagerAdapter.ExitStandbyTo` | plugins/standby_state/src/state_manager_adapter.cpp:268-280 | leaves standby: evaluation, block and half-hour control go |
| `StateManagerAdapters.StateManagerAdapter.TransitMaintenance` | plugins/standby_state/src/state_manager_adapter.cpp:303-309 | enters or leaves maintenance, dropping half-hour control only towards WORKING |
| `StateManagerAdapters.StateManagerAdapter.BlockCurrentState` | plugins/standby_state/src/state_manager_adapter.cpp:235-239 | blocks the current state |
| `StateManagerAdapters.StateManagerAdapter.OnNapBlocked` | plugins/standby_state/src/nap_state.cpp:121-134 | a blocked NAP heads for maintenance and gives the lock back |
| `StateManagerAdapters.StateManagerAdapter.SetNapPhaseTask` | plugins/standby_state/src/nap_state.cpp:93-106 | completes a phase of NAP |
| `StateManagerAdapters.StateManagerAdapter.SetSleepPhaseTask` | plugins/standby_state/src/sleep_state.cpp:173-188 | completes a phase of SLEEP and arms the repeated detection at the end |
| `StateManagerAdapters.StateManagerAdapter.EndEvalCurrent` | plugins/standby_state/src/nap_state.cpp:84-119 | hands a verdict to the current state |
| `StateManagerAdapters.StateManagerAdapter.EndEvalNapState` | plugins/standby_state/src/nap_state.cpp:84-119 | a verdict in NAP completes a phase, wakes the device or leads to SLEEP; `StandbyOutcomes.NapVerdict` says which |
| `StateManagerAdapters.StateManagerAdapter.EndEvalSleepState` | plugins/standby_state/src/sleep_state.cpp:153-171 | a verdict in SLEEP completes a phase, wakes the device or ends a repeated detection |
| `StateManagerAdapters.StateManagerAdapter.EndEvalCurrentState` | plugins/standby_state/src/state_manager_adapter.cpp:222-233 | the flags drop before the verdict is handed over |
| `StateManagerAdapters.StateManagerAdapter.StartMonitoring` | plugins/extend_constraints/src/constraint_manager_adapter.cpp:71-98 | accepts one evaluation at a time and starts its monitor, looked up by the packed key |
| `StateManagerAdapters.StateManagerAdapter.StartEvalCurrentState` | plugins/standby_state/src/state_manager_adapter.cpp:212-220 | the manager's flag rises before the constraint manager is asked |
| `StateManagerAdapters.StateManagerAdapter.EnterStandbyTo` | plugins/standby_state/src/state_manager_adapter.cpp:292-301 | an evaluation decides about entering standby, unless blocked |
| `StateManagerAdapters.StateManagerAdapter.GetCurInnerPhase` | plugins/ext/src/base_state.cpp:74-77 | the inner phase of the current state |
| `StateManagerAdapters.StateManagerAdapter.TransitTo` | plugins/standby_state/src/state_manager_adapter.cpp:246-266 | routes a requested transition |
| `StateManagerAdapters.StateManagerAdapter.GetNextState` | plugins/ext/src/base_state.cpp:79-101 | the state a timer task heads for |
| `StateManagerAdapters.StateManagerAdapter.RunTransitTask` | plugins/ext/src/base_state.cpp:79-101 | the transition task takes the lock, cancels the evaluation and transits, or blocks |
| `StateManagerAdapters.StateManagerAdapter.EnterFirstPhase` | plugins/standby_state/src/sleep_state.cpp:110-117 | the first phase task takes the lock and evaluates the phase |
| `StateManagerAdapters.StateManagerAdapter.TransitToPhase` | plugins/ext/src/base_state.cpp:103-112 | evaluates the next inner phase |
| `StateManagerAdapters.StateManagerAdapter.DetectRepeatedly` | plugins/standby_state/src/sleep_state.cpp:65-78 | evaluates the repeated motion constraint |
| `StateManagerAdapters.StateManagerAdapter.CheckScreenStatus` | plugins/standby_state/src/working_state.cpp:35-44 | asks for DARK when the screen is off |
| `StateManagerAdapters.StateManagerAdapter.TransitHoldSleepState` | plugins/standby_state/src/state_manager_adapter.cpp:459-468 | forces SLEEP and stops its timers; `StandbyOutcomes.HoldEndsTimers` says that none is left |
| `StateManagerAdapters.StateManagerAdapter.HandleUserSleepState` | plugins/standby_state/src/state_manager_adapter.cpp:135-153 | user sleep holds SLEEP; user awake restarts it |
| `StateManagerAdapters.StateManagerAdapter.HandleEvent` | plugins/standby_state/src/state_manager_adapter.cpp:106-133 | reacts to a common event, then checks for DARK |
| `StateManagerAdapters.StateManagerAdapter.WakeUp` | plugins/standby_state/src/state_manager_adapter.cpp:246-266 | asks for WORKING |
| `StateManagerAdapters.StateManagerAdapter.HandleMessage` | plugins/standby_state/src/state_manager_adapter.cpp:97-104 | only common events concern the state manager |
| `StateManagerAdapters.StateManagerAdapter.RunNextTask` | services/core/src/standby_service_impl.cpp:1653-1672 | the handler runs its oldest task |
| `StateManagerAdapters.StateManagerAdapter.OnTrigger` | plugins/ext/src/base_state.cpp:148-161 | a timer fires and posts its task; only the repeated one stays armed |
| `ExemptionFlags.AddingIsMonotone` | plugins/ext/include/ibase_strategy.h:43-51 | adding reasons other than RESTRICTED never takes an exemption away |
| `ExemptionFlags.RemovingIsMonotone` | plugins/ext/include/ibase_strategy.h:43-51 | removing reasons other than RESTRICTED never gives an exemption |
| `ExemptionFlags.NewcomerExempted` | plugins/strategy/src/running_lock_strategy.cpp:510-551 | an application that becomes tracked is exempt exactly when it is allowed, or is a system application that is not restricted |
| `RecordKeys.KeyIsInjective` | services/core/src/standby_service_impl.cpp:784 | a "uid_name" key determines uid and name, whatever the name contains |
| `RunningLockProofs.HandleMessageTidy` | plugins/strategy/src/running_lock_strategy.cpp:361-613 | whatever message arrives, the ledger of the power manager equals the pids of the tracked applications that are not exempt while proxied outside maintenance, and is empty otherwise |
| `RunningLockProofs.UpdateResourceExactly` | plugins/strategy/src/running_lock_strategy.cpp:128-133 | after the switch of day and night the ledger is exact if and only if the strategy was proxied, or the rebuild failed, or it found nobody to restrict |
| `RunningLockProofs.AddFlagTidy` | plugins/strategy/src/running_lock_strategy.cpp:463-480 | adding a reason keeps the ledger exact |
| `RunningLockProofs.RemoveFlagTidy` | plugins/strategy/src/running_lock_strategy.cpp:482-501 | removing a reason keeps the ledger exact |
| `RunningLockProofs.RemovingRestrictedBreaks` | plugins/strategy/src/running_lock_strategy.cpp:482-501 | removing RESTRICTED through the same path would not |
| `RunningLockProofs.ProcessCreatedTidy` | plugins/strategy/src/running_lock_strategy.cpp:593-600 | a new process keeps the ledger exact |
| `RunningLockProofs.ProcessDiedTidy` | plugins/strategy/src/running_lock_strategy.cpp:600-612 | a dead process keeps the ledger exact and leaves no pid behind |
| `RunningLockProofs.ResetStatusTidy` | plugins/strategy/src/running_lock_strategy.cpp:437-461 | the reset after a task service died keeps the ledger exact |
| `RunningLockProofs.StopProxyTidy` | plugins/strategy/src/running_lock_strategy.cpp:375-407 | pausing, resuming and stopping keep the ledger exact |
| `RunningLockProofs.StartProxyTidy` | plugins/strategy/src/running_lock_strategy.cpp:135-171 | starting keeps the ledger exact, also when a service does not answer |
| `RunningLockProofs.RebuildSound` | plugins/strategy/src/running_lock_strategy.cpp:173-354 | a rebuilt table files every application under its own key and no pid twice |
| `RunningLockSurvey.RebuildRestrictsExactly` | plugins/strategy/src/running_lock_strategy.cpp:173-373 | a rebuild restricts exactly the running processes whose application is not allowed and, unless restricted by name, is neither a system application nor in the foreground nor running a task |
| `RunningLockSurvey.NamesAreFirst` | plugins/strategy/src/running_lock_strategy.cpp:199-208 | a uid is known under the name installed first for it |
| `RunningLockSurvey.KeysOfExactly` | plugins/strategy/src/running_lock_strategy.cpp:272-277 | a key is marked exactly when its uid and name are listed |
| `RunningLockSurvey.SurveyTracks` | plugins/strategy/src/running_lock_strategy.cpp:187-243 | a rebuild tracks exactly the installed applications whose uid runs; the first one installed for a uid has all its processes |
| `TaskMarks.LockMarks` | plugins/strategy/src/running_lock_strategy.cpp:361-613 | what every message does to each of the seven marks of every entry, bits written out: a started task sets its own, a stopped one clears it, a died task service clears exactly transient and work scheduler, an allow notice moves the allowed one, a survey gives what it found, and everything else keeps them |
| `TaskMarks.SurveyMark` | plugins/strategy/src/running_lock_strategy.cpp:173-354 | after a survey an entry has a mark exactly when the list of that mark names it |
| `TaskMarks.LockTable` | plugins/strategy/src/running_lock_strategy.cpp:579-613 | unless the strategy surveys or leaves, only processes change the table: a started one is filed, an ended one struck out, and an application is forgotten exactly with its last process |
| `TaskMarks.StartedTaskIsFree` | plugins/strategy/src/running_lock_strategy.cpp:409-434 | after a task has started for a tracked application that is not restricted, none of its processes is held back |
| `TaskMarks.StoppedTaskIsHeld` | plugins/strategy/src/running_lock_strategy.cpp:409-434 | after its only reason has stopped, all of them are |
| `SystemModes.RestrictionsFollowLog` | plugins/strategy/src/running_lock_strategy.cpp:135-159 | in every run of the whole service in which surveys succeed, the delivered messages alone decide, in both directions, when proxy and firewall are on and when they are suspended |
| `SystemModes.ModeStep` | plugins/strategy/src/running_lock_strategy.cpp:135-171 | how every message switches the proxy, also when a survey fails: on exactly in the deep phase with a survey that succeeds, off exactly when SLEEP or its maintenance is left |
| `SystemModes.NetModeStep` | plugins/strategy/src/network_strategy.cpp:45-102 | how every message switches the firewall, also when a survey fails |
| `SystemModes.NetTable` | plugins/strategy/src/base_network_strategy.cpp:120-196 | the network table after every message that is not about an application: surveyed anew as far as the services answer, gone when SLEEP or its maintenance is left, and else kept |
| `SystemModes.DeepRestricts` | plugins/strategy/src/running_lock_strategy.cpp:135-171 | the deep phase of SLEEP holds back exactly whom its survey says |
| `RunningLockStrategies.RunningLockStrategy.SetProxiedAppList` | plugins/strategy/src/running_lock_strategy.cpp:553-559 | appends the pids of an application |
| `RunningLockStrategies.RunningLockStrategy.ProxyRunningLockList` | plugins/strategy/src/running_lock_strategy.cpp:561-577 | holds back or releases the listed pids, except during idle maintenance |
| `RunningLockStrategies.RunningLockStrategy.ProxyAppAndProcess` | plugins/strategy/src/running_lock_strategy.cpp:361-373 | holds back or releases every application that is not exempt |
| `RunningLockStrategies.RunningLockStrategy.GetAllAppInfos` | plugins/strategy/src/running_lock_strategy.cpp:187-209 | one entry for each installed application, marked when it is a system application |
| `RunningLockStrategies.RunningLockStrategy.GetAllRunningAppInfo` | plugins/strategy/src/running_lock_strategy.cpp:211-243 | files the running pids and drops applications that do not run |
| `RunningLockStrategies.RunningLockStrategy.MarkTasks` | plugins/strategy/src/running_lock_strategy.cpp:268-278 | marks the listed applications that are tracked |
| `RunningLockStrategies.RunningLockStrategy.MarkContinuous` | plugins/strategy/src/running_lock_strategy.cpp:299-310 | marks applications with continuous tasks, found by uid |
| `RunningLockStrategies.RunningLockStrategy.MarkListed` | plugins/strategy/src/running_lock_strategy.cpp:324-354 | marks tracked applications by name |
| `RunningLockStrategies.RunningLockStrategy.InitProxiedAppInfo` | plugins/strategy/src/running_lock_strategy.cpp:173-185 | rebuilds the table, or fails when a service does not answer |
| `RunningLockStrategies.RunningLockStrategy.StartProxyInner` | plugins/strategy/src/running_lock_strategy.cpp:161-171 | rebuilds and holds back |
| `RunningLockStrategies.RunningLockStrategy.StopProxyInner` | plugins/strategy/src/running_lock_strategy.cpp:402-407 | releases and forgets |
| `RunningLockStrategies.RunningLockStrategy.StartProxyOn` | plugins/strategy/src/running_lock_strategy.cpp:135-159 | starts when SLEEP enters its deep phase |
| `RunningLockStrategies.RunningLockStrategy.StopProxyOn` | plugins/strategy/src/running_lock_strategy.cpp:375-400 | pauses for maintenance, resumes after it, stops when SLEEP is left |
| `RunningLockStrategies.RunningLockStrategy.UpdateResourceConfig` | plugins/strategy/src/running_lock_strategy.cpp:128-133 | stops and starts again |
| `RunningLockStrategies.RunningLockStrategy.AddExemptionFlag` | plugins/strategy/src/running_lock_strategy.cpp:463-480 | adds a reason and releases an application that became exempt |
| `RunningLockStrategies.RunningLockStrategy.RemoveExemptionFlag` | plugins/strategy/src/running_lock_strategy.cpp:482-501 | removes a reason and holds back an application that lost its exemption |
| `RunningLockStrategies.RunningLockStrategy.ResetProxyStatus` | plugins/strategy/src/running_lock_strategy.cpp:437-461 | walks over the table and takes every task reason away |
| `RunningLockStrategies.RunningLockStrategy.GetAndCreateAppInfo` | plugins/strategy/src/running_lock_strategy.cpp:510-527 | files a new pid, under an entry whose flag is computed from the lists when the application was not tracked |
| `RunningLockStrategies.RunningLockStrategy.GetExemptionConfigForApp` | plugins/strategy/src/running_lock_strategy.cpp:529-551 | marks a new application by the allowed and the restricted names |
| `RunningLockStrategies.RunningLockStrategy.HandleProcessStatusChanged` | plugins/strategy/src/running_lock_strategy.cpp:579-613 | follows processes being created and dying |
| `RunningLockStrategies.RunningLockStrategy.UpdateBgTaskAppStatus` | plugins/strategy/src/running_lock_strategy.cpp:409-434 | background tasks start and stop |
| `RunningLockStrategies.RunningLockStrategy.UpdateExemptionList` | plugins/strategy/src/running_lock_strategy.cpp:99-126 | the allow list changed |
| `RunningLockStrategies.RunningLockStrategy.HandleEvent` | plugins/strategy/src/running_lock_strategy.cpp:50-79 | routes a message; the ledger is exact afterwards if it was before, and `TaskMarks.LockMarks` and `TaskMarks.LockTable` say what the table is |
| `NetworkProofs.HandleNetMessageKeeps` | plugins/strategy/src/base_network_strategy.cpp:372-635 | whatever message arrives, the trust list stays within the exempt applications while the firewall is enabled, empty while it is not, and the idle policy is on only while it is; a complete list stays complete except exactly when an application becomes tracked while already exempt, or a rebuild fails |
| `NetworkProofs.AddNetFlagKeeps` | plugins/strategy/src/base_network_strategy.cpp:525-548 | adding a reason keeps the list complete if and only if the uid was tracked or its fresh flag is not exempt |
| `NetworkProofs.RemoveNetFlagKeeps` | plugins/strategy/src/base_network_strategy.cpp:550-574 | removing a reason keeps the list complete |
| `NetworkProofs.AdditionNoticed` | plugins/strategy/src/base_network_strategy.cpp:576-588 | with a reason added, the asymmetric night test notices an application if and only if it was not exempt and is exempt now |
| `NetworkProofs.RemovalNoticed` | plugins/strategy/src/base_network_strategy.cpp:576-588 | the same test with swapped arguments notices every lost exemption and no kept one |
| `NetworkProofs.UpdateAllowListKeeps` | plugins/strategy/src/base_network_strategy.cpp:120-132 | a rebuild makes the list right whatever it was; a failed one trusts nobody |
| `NetworkProofs.StartLimitKeeps` | plugins/strategy/src/base_network_strategy.cpp:134-160 | setting the firewall up trusts exactly the exempt applications |
| `NetworkProofs.StopLimitKeeps` | plugins/strategy/src/base_network_strategy.cpp:372-406 | pausing, resuming and stopping keep the list right |
| `NetworkProofs.MaintenanceClearsExactly` | plugins/strategy/src/base_network_strategy.cpp:382-386 | pausing a list that was right by day empties it, unless night has fallen and some tracked application has no mark but that of a system application: if and only if |
| `NetworkProofs.MaintenanceClears` | plugins/strategy/src/base_network_strategy.cpp:382-386 | pausing takes exactly the applications off the list that are exempt under the condition now in force |
| `NetworkProofs.DayOnlyExactly` | plugins/strategy/src/base_network_strategy.cpp:511-523 | exempt by day and not at night are exactly the system applications with no other mark |
| `FirewallRuns.NightfallLeavesTrust` | plugins/strategy/src/base_network_strategy.cpp:382-386 | a run of the whole service, with any configuration, in which night falls before the interruption and a system application stays on the list of a firewall that is off |
| `NetworkProofs.MaintenanceReturnsExactly` | plugins/strategy/src/base_network_strategy.cpp:382-391 | maintenance gives the strategy back as it was if and only if the firewall had been enabled |
| `NetworkProofs.MaintenanceIsNeutral` | plugins/strategy/src/base_network_strategy.cpp:382-391 | for any table, list and policy: maintenance changes nothing if and only if firewall and policy were on and every exempt application was on the list |
| `NetworkProofs.MaintenanceEnables` | plugins/strategy/src/base_network_strategy.cpp:382-391 | whatever it was before, the firewall and its policy are on after maintenance, over the table as it was, with the exempt applications in it trusted |
| `FirewallRuns.FirewallWithoutSurvey` | plugins/strategy/src/base_network_strategy.cpp:134-160 | a run of the whole service, with any configuration, in which no survey ever succeeds and that ends in SLEEP with the firewall on, over the table the failed survey left |
| `FirewallRuns.FirewallNeverPrepared` | plugins/strategy/src/base_network_strategy.cpp:387-391 | a run of the whole service through the maintenance of NAP that ends in SLEEP with the firewall on and an empty table, whatever the services would answer |
| `FirewallOrigin.EnabledMeansSurveyed` | plugins/strategy/src/base_network_strategy.cpp:120-160 | in every run the table holds only applications that ran when the last survey was made or were named by a message since; and unless a maintenance ends over a table without a survey or a rebuild at the switch of day and night fails, the firewall is enabled only with a surveyed table |
| `FirewallOrigin.StepKeepsOrigin` | plugins/strategy/src/base_network_strategy.cpp:120-160 | one step leaves the firewall enabled without a survey if and only if it is one of those two |
| `FirewallRuns.AllowedIsOverlooked` | plugins/strategy/src/base_network_strategy.cpp:525-548 | a run of the whole service, with any configuration and steady answers, in which an untracked application is allowed the network while the firewall is on and is never trusted |
| `FirewallRuns.GrantInMaintenanceIsLost` | plugins/strategy/src/base_network_strategy.cpp:525-529 | a run of the whole service, with any configuration, in which a tracked application is allowed the network during maintenance and stays unmarked and untrusted after it |
| `NetworkProofs.NewcomerTrusted` | plugins/strategy/src/base_network_strategy.cpp:322-354 | an application that becomes tracked is exempt exactly when it is allowed, or is a system application by day with no restriction on its name |
| `NetworkProofs.RebuildTrustsExactly` | plugins/strategy/src/base_network_strategy.cpp:163-320 | a rebuild trusts exactly the running uids that are allowed or, unless restricted, are in the foreground, run a task that counts, or are system applications by day that are not restricted conditionally |
| `TaskMarks.NetMarks` | plugins/strategy/src/base_network_strategy.cpp:426-574 | what a message about a reason does to each of the seven marks of every tracked uid, bits written out, the night rule for continuous tasks and the conditional restriction included |
| `TaskMarks.NetSurveyMarks` | plugins/strategy/src/base_network_strategy.cpp:163-320 | after a survey a uid has a mark exactly when the survey says so |
| `TaskMarks.NetSurveyTracks` | plugins/strategy/src/base_network_strategy.cpp:198-211 | a survey tracks exactly the uids under which something runs, each under the name of its first process |
| `TaskMarks.NetProcess` | plugins/strategy/src/base_network_strategy.cpp:470-509 | with the firewall on, a process message removes a uid if and only if it is the uid of the message, the process has died and the application is not running any more; everybody else keeps entry and trust; an application whose process starts is tracked afterwards |
| `NetworkStrategies.NetworkStrategy.SetFirewallAllowedList` | plugins/strategy/src/network_strategy.cpp:111-130 | edits the trust list; nobody is removed during idle maintenance |
| `NetworkStrategies.NetworkStrategy.SetNetAllowApps` | plugins/strategy/src/base_network_strategy.cpp:356-370 | trusts or distrusts every exempt application |
| `NetworkStrategies.NetworkStrategy.ExemptList` | plugins/strategy/src/base_network_strategy.cpp:358-366 | collects exactly the exempt uids |
| `NetworkStrategies.NetworkStrategy.SetFirewallStatus` | plugins/strategy/src/base_network_strategy.cpp:612-635 | trust first, then the policy; off in the opposite order |
| `NetworkStrategies.NetworkStrategy.ResetFirewallAllowList` | plugins/strategy/src/base_network_strategy.cpp:590-610 | empties the trust list and ends the policy |
| `NetworkStrategies.NetworkStrategy.GetAllRunningAppInfo` | plugins/strategy/src/base_network_strategy.cpp:198-211 | tracks every running uid under its first process name |
| `NetworkStrategies.NetworkStrategy.MarkSystemApps` | plugins/strategy/src/base_network_strategy.cpp:182-189 | marks system applications |
| `NetworkStrategies.NetworkStrategy.AddExemptionFlagByUid` | plugins/strategy/src/base_network_strategy.cpp:274-279 | marks one tracked uid |
| `NetworkStrategies.NetworkStrategy.AddExemptionFlags` | plugins/strategy/src/base_network_strategy.cpp:213-224 | marks the listed uids |
| `NetworkStrategies.NetworkStrategy.MarkContinuous` | plugins/strategy/src/base_network_strategy.cpp:243-251 | marks continuous tasks, at night only exempt types |
| `NetworkStrategies.NetworkStrategy.GetExemptionConfig` | plugins/strategy/src/base_network_strategy.cpp:281-320 | marks allowed, restricted and conditionally restricted names |
| `NetworkStrategies.NetworkStrategy.InitNetLimitedAppInfo` | plugins/strategy/src/base_network_strategy.cpp:163-196 | rebuilds the table, or leaves a partial one |
| `NetworkStrategies.NetworkStrategy.EnableNetworkFirewall` | plugins/strategy/src/base_network_strategy.cpp:134-160 | sets the firewall up |
| `NetworkStrategies.NetworkStrategy.DisableNetworkFirewall` | plugins/strategy/src/base_network_strategy.cpp:372-406 | pauses, resumes or stops the firewall |
| `NetworkStrategies.NetworkStrategy.UpdateFirewallAllowList` | plugins/strategy/src/base_network_strategy.cpp:120-132 | rebuilds the trust list at the switch of day and night |
| `NetworkStrategies.NetworkStrategy.GetAndCreateAppInfo` | plugins/strategy/src/base_network_strategy.cpp:638-652 | tracks an application, with a flag computed from the lists when it is new |
| `NetworkStrategies.NetworkStrategy.GetExemptionConfigForApp` | plugins/strategy/src/base_network_strategy.cpp:322-354 | marks a new application by the allowed, the restricted and the conditionally restricted names |
| `NetworkStrategies.NetworkStrategy.AddExemptionFlag` | plugins/strategy/src/base_network_strategy.cpp:525-548 | adds a reason |
| `NetworkStrategies.NetworkStrategy.RemoveExemptionFlag` | plugins/strategy/src/base_network_strategy.cpp:550-574 | removes a reason |
| `NetworkStrategies.NetworkStrategy.UpdateBgTaskAppStatus` | plugins/strategy/src/base_network_strategy.cpp:426-468 | background tasks start and stop |
| `NetworkStrategies.NetworkStrategy.UpdateExemptionList` | plugins/strategy/src/base_network_strategy.cpp:92-118 | the allow list changed |
| `NetworkStrategies.NetworkStrategy.HandleProcessStatusChanged` | plugins/strategy/src/base_network_strategy.cpp:470-509 | follows applications starting and stopping; `TaskMarks.NetProcess` says who stays tracked and trusted |
| `NetworkStrategies.NetworkStrategy.StartNetLimit` | plugins/strategy/src/network_strategy.cpp:88-102 | only the deep phase of SLEEP sets the firewall up |
| `NetworkStrategies.NetworkStrategy.HandleEvent` | plugins/strategy/src/network_strategy.cpp:45-70 | routes a message; the trust list is sound afterwards if it was before |
| `StandbySystem.LedgerIsExact` | plugins/strategy/src/running_lock_strategy.cpp:361-400 | in every reachable state of the whole service the power manager holds back exactly the pids of the tracked applications that are not exempt while proxied outside maintenance, and somebody only if the state delivered last is SLEEP |
| `StandbySystem.TrustIsSound` | plugins/strategy/src/base_network_strategy.cpp:372-406 | in every reachable state of the whole service the trust list holds only tracked, exempt applications, is empty while the firewall is off, and the idle policy is on only if the state delivered last is SLEEP |
| `StandbySystem.TrustIsExact` | plugins/strategy/src/base_network_strategy.cpp:372-635 | in every run of the whole service in which the condition does not change behind the trust list and no application is overlooked, the trust list of the enabled firewall is exactly the tracked applications that are exempt |
| `StandbySystem.StepKeepsComplete` | plugins/strategy/src/base_network_strategy.cpp:372-635 | one step from a complete list ends with a complete list if and only if it overlooks nobody |
| `StandbySystem.RestrictionsFollowSleep` | plugins/strategy/src/running_lock_strategy.cpp:135-159 | without any assumption: firewall and proxy are active only if the state delivered last is SLEEP and suspended only in MAINTENANCE; with no announcement waiting, that state is the current one |
| `StandbySystem.DeliveredStateIsPostedState` | services/core/src/standby_service_impl.cpp:1653-1672 | when exactly the messages dispatched by some moment have been delivered, the strategies know the state the machine was in at that moment |
| `StandbySystem.StepKeepsPlace` | plugins/strategy/src/running_lock_strategy.cpp:375-400 | one step keeps both strategies where the delivered state wants them |
| `StandbySystem.StepKeepsLedger` | plugins/strategy/src/running_lock_strategy.cpp:361-613 | one step keeps the ledger of running locks exact |
| `StandbySystem.StepKeepsTrust` | plugins/strategy/src/base_network_strategy.cpp:372-635 | one step keeps the trust list sound; a message about the condition always finds the strategy outside maintenance |
| `SystemLeak.HeldBackWhileAwake` | plugins/strategy/src/running_lock_strategy.cpp:128-133 | a run of the whole service, with any configuration, that ends in WORKING with a process held back: the assumption about the switch of day and night is needed |
| `AllowRuns.StoreIsConsistent` | services/core/src/standby_service_impl.cpp:775-858 | in every run each stored mask is nonzero and the union of the bits of a duplicate-free list, replaying the notices gives every mask, and the file encodes the map |
| `AllowRuns.ExpiredEntriesGo` | services/core/src/standby_service_impl.cpp:852-856 | in every run, once the sweeps due by now have run, every stored entry is still running |
| `AllowRuns.TimeLeftIsCapped` | services/core/src/standby_service_impl.cpp:831-837 | the time left of an entry never exceeds the configured maximum of its type, except for the work scheduler |
| `AllowRuns.AllowNextKeeps` | services/core/src/standby_service_impl.cpp:775-928 | every step keeps records, coverage by sweeps and the file, and the notices if they were complete |
| `AllowRuns.NothingOutlives` | services/core/src/standby_service_impl.cpp:905-913 | with every entry covered by a sweep due at its end, no entry outlives the sweeps |
| `AllowRuns.StaleSweepIsHarmless` | services/core/src/standby_service_impl.cpp:905-913 | no sweep removes an entry that has not ended |
| `AllowRuns.RunSweepKeepsCovered` | services/core/src/standby_service_impl.cpp:884-928 | running a sweep uncovers no entry that stays |
| `AllowRuns.ApplyKeepsCovered` | services/core/src/standby_service_impl.cpp:852-856 | an application posts the sweeps its entries need |
| `AllowRuns.ApplyAnnounces` | services/core/src/standby_service_impl.cpp:798-805 | an application announces exactly the bits it adds |
| `AllowRuns.UnapplyAnnounces` | services/core/src/standby_service_impl.cpp:925-926 | a removal announces exactly the bits it removes |
| `AllowRuns.AnnouncesTells` | services/core/src/standby_service_impl.cpp:946-956 | exact announcements keep every listener's picture right, for all uids and names |
| `JointRuns.NetworkFollowsStore` | services/core/src/standby_service_impl.cpp:946-956 | in every run of store and service together in which surveys and lookups agree with the store and notices find the firewall enabled: once no notice about it waits, a tracked application is marked as allowed exactly when the store allows it the network |
| `JointRuns.LocksFollowStore` | services/core/src/standby_service_impl.cpp:946-956 | the same for the running-lock strategy and its permission, also during maintenance |
| `JointRuns.StoreKeepsBelief` | services/core/src/standby_service_impl.cpp:946-956 | after every change of the store the waiting notices tell exactly what it now says |
| `JointRuns.NoticeIsExternal` | services/core/src/standby_service_impl.cpp:946-956 | a change of the store dispatches at most one message, as the service dispatches those of other components |
| `JointRuns.QueueMoves` | services/core/src/standby_service_impl.cpp:1653-1672 | a step of the service takes its own message off the queue and appends none that the store sends |
| `AllowMarks.NetMark` | plugins/strategy/src/base_network_strategy.cpp:281-354 | after any message every entry of the network table has the mark the message gives it, on top of its own or of what the store says |
| `AllowMarks.LockMark` | plugins/strategy/src/running_lock_strategy.cpp:324-354 | the same for the table of the running-lock strategy |
| `AllowMarks.AnswerAgrees` | services/core/src/standby_service_impl.cpp:978-1040 | the listed names agree with the store about an application that is listed plainly: nobody else has its name, its entry is running and for callers with this reason code, and no configuration names it |
| `AllowSync.StoreTells` | services/core/src/standby_service_impl.cpp:775-928 | every step of the store sends one notice at most, which tells each permission it changes |
| `AllowProofs.UpdateAgrees` | services/core/src/standby_service_impl.cpp:826-856 | an application keeps mask and list in agreement and takes no bit away |
| `AllowProofs.RemovalAgrees` | services/core/src/standby_service_impl.cpp:905-924 | the removed number lies within the mask, so the subtraction removes exactly its bits; the record goes exactly when no entry is left |
| `AllowProofs.KeptAgrees` | services/core/src/standby_service_impl.cpp:905-913 | taking entries out of a list takes exactly their bits out of its union |
| `AllowProofs.KeptExactly` | services/core/src/standby_service_impl.cpp:905-913 | a removal keeps, in order, exactly the entries it does not name or that have not ended |
| `AllowProofs.UnapplyExactly` | services/core/src/standby_service_impl.cpp:884-928 | what a removal leaves of every record |
| `AllowProofs.ApplyKeepsRecords` | services/core/src/standby_service_impl.cpp:775-811 | an application keeps all records well-formed |
| `AllowProofs.UnapplyKeepsRecords` | services/core/src/standby_service_impl.cpp:884-928 | a removal keeps all records well-formed |
| `MaskBits.SubtractIsMinus` | services/core/src/standby_service_impl.cpp:923 | subtracting bits that are all present removes exactly them |
| `MaskBits.DeltaIsMissing` | services/core/src/standby_service_impl.cpp:799-800 | the announced difference is exactly the bits that were missing |
| `AllowStore.Find` | services/core/src/standby_service_impl.cpp:843-844 | the first entry of a type |
| `AllowEffects.ApplyExactly` | services/core/src/standby_service_impl.cpp:775-858 | what a request leaves of every record: a type asked for has one entry, which ends at the later of its old end and now plus the duration, cut to its cap except for the work scheduler, with the new reason; other types keep theirs; the pid is the caller's, the reason code that of the first request; other records stay |
| `AllowEffects.DeathExactly` | services/core/src/standby_service_impl.cpp:614-624 | the death of an application leaves exactly its permissions for timer and work scheduler, a reset leaves nothing |
| `AllowEffects.ListedIsTimeLeft` | services/core/src/standby_service_impl.cpp:995-1023 | the duration of a listed record is the time left of a running entry of its type |
| `AllowEffects.ListedWithinLimits` | services/core/src/standby_service_impl.cpp:995-1023 | in every run within limits below 2^31 ms a listed duration is positive and at most the limit of its type |
| `AllowEffects.DurationTellsKind` | services/core/src/standby_service_impl.cpp:978-1040 | in every such run the duration of an answered entry tells its kind: a configured name is listed with -1, a record with a positive time left |
| `AllowListing.ListedOrSwept` | services/core/src/standby_service_impl.cpp:1001-1021 | a permission asked for is either listed or handed to a sweep, the second exactly when every entry of its type has ended |
| `AllowListing.LazyEqualsEager` | services/core/src/standby_service_impl.cpp:995-1023 | the listing is the same whichever sweeps have run before it |
| `AllowListing.ListingIgnoresSweep` | services/core/src/standby_service_impl.cpp:1012-1021 | one sweep, whatever it asks for, does not change the listing at that time |
| `AllowListing.ActiveExactly` | services/core/src/standby_service_impl.cpp:1001-1014 | a record is listed exactly when it has the reason code and a running entry of the type |
| `AllowListing.RestrictSetExactly` | services/core/src/standby_service_impl.cpp:1059-1077 | the restricted names are exactly the configured ones that nobody is allowed under now |
| `AllowReload.ReloadKeepsExactly` | services/core/src/standby_service_impl.cpp:387-421 | after a restart exactly the records come back whose pid runs under the recorded name, each as it was |
| `AllowReload.LoadExactly` | services/core/src/standby_service_impl.cpp:387-421 | what loading does to a store in use: a record in memory wins over the one of the file, and both stay exactly if their pid runs under their name |
| `AllowReload.UnavailableListLosesRecords` | services/core/src/standby_service_impl.cpp:387-394 | without a process list nothing is loaded and the next change drops the saved records from the file |
| `AllowReload.OnTimeExactly` | services/core/src/standby_service_impl.cpp:457-459 | the recovered sweep is on time exactly when less than 2^31 ms are left, or when the entry has ended and the time since then, modulo 2^32, is at most 2^31 |
| `AllowReload.RecoveredIsCovered` | services/core/src/standby_service_impl.cpp:447-462 | recovered sweeps that are on time cover the store |
| `AllowReload.LongEntryIsForgotten` | services/core/src/standby_service_impl.cpp:457-459 | with 2^31 ms left the recovered sweep runs at once and the entry is left without any |
| `AllowReload.SecondLife` | services/core/src/standby_service_impl.cpp:387-421 | a run, a restart and another run keep the invariant, and ended entries go, if the entries read back are on time |
| `AllowRecords.RecordRoundTrip` | services/core/src/allow_record.cpp:20-94 | what is written for a record is read back as that record |
| `AllowRecords.TimesRoundTrip` | services/core/src/allow_record.cpp:28-38 | the same for its list of times |
| `AllowRecords.ReadableExactly` | services/core/src/allow_record.cpp:42-94 | a value reads as a record exactly when it is an object with the five fields whose list of times, if any, holds only objects with the three fields; numbers are read modulo the width of their field |
| `AllowRecords.FileRoundTrip` | services/core/src/standby_service_impl.cpp:464-472 | the file decodes to the map it was written from |
| `AllowRecordObjects.AllowRecord.ParseToJson` | services/core/src/allow_record.cpp:20-40 | the JSON of a record, readable back when its numbers fit |
| `AllowRecordObjects.AllowRecord.SetAllowTime` | services/core/src/allow_record.cpp:42-57 | appends one entry, or refuses it |
| `AllowRecordObjects.AllowRecord.SetAllowRecordField` | services/core/src/allow_record.cpp:59-76 | fills the fields when all are present with their types |
| `AllowRecordObjects.AllowRecord.ParseFromJson` | services/core/src/allow_record.cpp:78-94 | fills a fresh record exactly when every part can be read |
| `AllowServices.AllowService.DumpPersistantData` | services/core/src/standby_service_impl.cpp:464-472 | the file becomes the encoding of the map |
| `AllowServices.AllowService.UpdateRecord` | services/core/src/standby_service_impl.cpp:813-858 | one pass over the types extends list, mask and queue; `AllowEffects.ApplyExactly` says which times result |
| `AllowServices.AllowService.ApplyAllowResInner` | services/core/src/standby_service_impl.cpp:775-811 | applies a request |
| `AllowServices.AllowService.UnapplyAllowResInner` | services/core/src/standby_service_impl.cpp:884-928 | removes types, all or only ended ones |
| `AllowServices.AllowService.RemoveAppAllowRecord` | services/core/src/standby_service_impl.cpp:614-624 | removes what does not survive the application |
| `AllowServices.AllowService.RunTask` | services/core/src/standby_service_impl.cpp:852-854 | a posted sweep runs |
| `AllowServices.AllowService.GetTemporaryAllowList` | services/core/src/standby_service_impl.cpp:995-1023 | lists each allowed record once and hands exactly the records with an ended entry to a sweep each, due now |
| `AllowServices.AllowService.GetPersistAllowList` | services/core/src/standby_service_impl.cpp:1025-1040 | lists each configured name once, without an end |
| `AllowServices.AllowService.GetAllowListInner` | services/core/src/standby_service_impl.cpp:978-993 | the whole answer, type by type: the temporary entries, then the configured ones; and exactly one sweep, due now, for each record with an ended entry of a type asked for |
| `AllowServices.AnsweredNames` | services/core/src/standby_service_impl.cpp:1067-1070 | the names in the answer are those of the active records and the configured ones, for the types asked for |
| `AllowServices.AllowService.GetEligiableRestrictSet` | services/core/src/standby_service_impl.cpp:1059-1077 | the configured names that are not allowed now, with the same sweeps posted |
| `AllowServices.AllowService.ParsePersistentData` | services/core/src/standby_service_impl.cpp:387-421 | reads records back, erases dead ones, posts sweeps, rewrites the file |
| `AllowServices.AllowService.RecoverTimeLimitedTask` | services/core/src/standby_service_impl.cpp:447-462 | posts one sweep for every entry |
| `BackupFraming.BackupRoundTrip` | services/core/src/standby_service_impl.cpp:507-578 | restoring a backup calls each subscribed written module once, in order, with its exact data, if and only if the last written module is not both subscribed and empty; otherwise exactly that call is missing |
| `BackupFraming.RestoreIsSafe` | services/core/src/standby_service_impl.cpp:562-578 | on any buffer the calls get contiguous slices of it in ascending order |
| `BackupFraming.AscendingApart` | services/core/src/standby_service_impl.cpp:562-578 | two such slices never overlap and a header lies between them |
| `BackupFraming.HeadReads` | services/core/src/standby_service_impl.cpp:565-567 | a written header reads back as the same name, size and, below 2^32, offset |
| `BackupFraming.PaddedName` | services/core/src/standby_service_impl.cpp:566 | a NUL-padded name field gives the name back |
| `BackupFraming.DecodeEncode` | services/core/src/standby_service_impl.cpp:522-523 | a 32-bit size survives its little-endian form |
| `BackupFraming.CopyName` | services/core/src/standby_service_impl.cpp:518-519 | a name of 32 bytes or more is refused |
| `BackupFraming.OnBackup` | services/core/src/standby_service_impl.cpp:511-528 | the backup buffer, frame by frame |
| `BackupFraming.OnRestore` | services/core/src/standby_service_impl.cpp:563-578 | the restore loop on the buffer it patches |

## Left out

- AllowServices.AllowService.GetTemporaryAllowList: promises each listed record once in some order, because the order of the hash map is unspecified.
- NetworkStrategies.NetworkStrategy.UpdateBgTaskAppStatus: omits the test of isNightSleepMode_ (base_network_strategy.cpp:446), which nothing in the repository ever sets.
- RunningLockStrategies.RunningLockStrategy.GetAndCreateAppInfo: uses the signed uid in the key, which is the source's unsigned one for every uid that is not negative.
- RunningLockStrategies.RunningLockStrategy.HandleProcessStatusChanged: for a negative uid the source files the pid under the unsigned uid and adds an empty entry under the signed one; this is not modelled, because uids are not negative.
- BaseNetworkStrategy::ResetFirewallStatus: the network strategy replaces the routing that would reach it, so no message of the service runs it.
- Separate state objects: the five states share one class with the manager, so their allocation and weak pointers are not modelled.
- Character encoding: strings are kept as they are.
- Files around a backup: one byte array stands for the file; descriptors, the reply code and the saved copy are not modelled.
- Shared ownership of allow records: the map holds record values, so aliasing between the map and a captured record is covered only by the free choice of mask in a run.
- Motion sensor sampling, energy, and the alternation of detection and rest: floating point and timing; their outcome is a free verdict or failure of the sensors.
- The pending-task removal inside a stopped motion monitor: a verdict that arrives late is ignored by the flags, which the model keeps.
- Real clocks, local time, night hours and random delays: inputs of a step.
- The record of past transitions kept for dumps, and the notifications sent to subscribers outside the service.
- The message that the network strategy sends when the idle policy changes: no modelled component reads it.
- The debug dump commands: they bypass the transition checks by design.
- OnDestroy of the strategies: treated as the end of a run.
- Permission checks, token checks, bundle and application lookups: foreign calls, their answers are inputs.
- Parsing of configuration files: switches, intervals, caps and lists are inputs.
- Timer and work-scheduler strategies, listener manager, device state cache, standby state subscriber.
- Inter-process proxies and stubs, client library, language bindings and parcels.
