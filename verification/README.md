# Alerts subsystem: a verified model

A Dafny model of the alerts subsystem of the Alexa client: the alert scheduler, the alert lifecycle, the SQLite alert
storage and the alert-related part of the capability agent.

- `Types`, `Ordering`, `Lifecycle`, `LifecycleRuns`, `LifecycleEffects`: an alert's state, its operations as functions, what
  every run of one alert guarantees, and what renderer and observer get to see of each operation.
- `AssetParsing`, `Alert`: the parsing of the asset part of a payload, and the alert class, whose methods update its
  fields in place and equal the lifecycle functions.
- `Storage`: the table and the storage class over it.
- `Queue`, `SchedulerModel`: the ordered set, and each operation of the scheduler as a function of the scheduler's whole
  state and of the answers its environment gives (`Env`: clock, timer, disk, order of the rows).
- `Consistency`, `Quiet`, `Wakeups`, `Runs`, `Mirror`, `Population`, `Order`, `Updates`, `Deletion`, `Reload`: the theorems
  about single operations and whole runs.
- `Closed`, `Completions`, `Maps`, `Failures`: the scheduler together with the notifications its alerts have sent, handled
  in order; which alert a COMPLETED removes; which asset maps arise; and runs on which the guards fail.
- `Effects`, `Notices`: what the scheduler's operations come to in Unix seconds, renderer calls and rows, and what its
  observer is told, in which order.
- `AlertScheduler`: the scheduler class over live alert objects, each method proved equal to the model's function.
- `Volume`, `CapabilityAgent`: the volume protocol, and the agent class that routes SetAlert into the scheduler.

Every public operation of the scheduler runs under its lock and is one step. Notifications go through an executor; in the
model they arrive as operations in any order, so what is proved holds for every schedule. Where a handler needs more than
the code checks, the need is an explicit guard: `Safe`, `Gentle` and `Drifts` are predicates on the state before an
operation, and the theorems say that the invariants are kept if and only if they hold. `Closed` adds the FIFO order: there
the guards of notifications are proved, and what remains are conditions on events from outside.

Where the code differs from what its names or comments suggest, the model follows the code:

- A storage modification writes the state and the time of a row, never its assets. After an update with other assets,
  memory and table disagree until the next start brings the old assets back (`UpdateMirrorsAssetsIff`,
  `StepKeepsMirrorIff`, `UpdatedAssetsAreLost`).
- A bulk deletion that lists an alert in memory twice is refused as a whole by the real storage
  (`DeleteAlertsSucceedsIff`).
- A load stops at the first row that fails validation, such as one with a dangling background asset, and thereby hides all
  later rows (`LoadIsCompleteIff`). Nothing checks this when a SetAlert is stored (`StoredDirectiveIsBackIff`).
- Parsing does not check the background asset. Such an alert starts in the background with one empty url
  (`BackgroundStartWithDanglingAsset`), and cannot be rolled back by a failed update (`FailedUpdateRestoresIff`).
- COMPLETED drops whatever alert is active (`LateCompletionDropsAnotherAlert`), which may be one that nobody completed
  (`SecondCompletionDropsTheHead`); SNOOZED requeues it without asking
  whether there is one, hence the precondition of `OnSnoozed`; an error reported before a snooze, or a bulk deletion behind
  one, brings that about (`SnoozeBehindErrorFindsNothing`, `DeleteAllBehindSnoozeFindsNothing`).
- STOPPED for a queued alert takes its row and leaves it queued (`StoppedKeepsIff`); a local stop right behind a snooze
  leads there (`LocalStopBehindSnoozeStrands`).
- A focus change of a sounding alert followed by a snooze starts the renderer for the snoozed alert
  (`SnoozedAlertRestartsIff`).
- Clearing the data under an active alert lets its token be scheduled again (`ClearedTokenIsRescheduled`).
- A reload without scheduling neither filters the active token nor resets alerts stored as ACTIVE (`ReloadKeepsIff`,
  `StepKeepsQuietIff`, `UnscheduledReloadQueuesActive`).
- A local volume change announced while an alert sounds, but taken up after it stopped, is reported although it was undone
  (`StepSettlesIff`).

## Model

| member | source | states |
|---|---|---|
| `SchedulerRuns.RunKeepsInvariant` | app/alexa/src/main/cpp/acsdk_alerts/AlertScheduler.cpp:67-364 | After any run of guarded operations with a working clock and timer: the queue is strictly sorted, tokens are distinct across queue and active place, every queued alert owns a stored row with its token and time, only the active alert can ring, the active alert hears the scheduler's focus, and no wakeup is lost. |
| `SchedulerRuns.InitialInvariant` | app/alexa/src/main/cpp/acsdk_alerts/AlertScheduler.cpp:36-39 | A new scheduler over any well-formed table satisfies that invariant, so guarded runs from there never leave it. |
| `SchedulerRuns.UnguardedRun` | app/alexa/src/main/cpp/acsdk_alerts/AlertScheduler.cpp:67-413 | Focus agreement holds over every run with no guard at all; so does no-lost-wakeup when only the clock and the timer work. |
| `ClosedScheduler.EventKeepsGoodIff` | app/alexa/src/main/cpp/acsdk_alerts/AlertScheduler.cpp:303-364 | The scheduler with its FIFO of sent and unhandled notifications, fed only by SetAlert directives, loads and callbacks: every event keeps the whole invariant and the order of what waits if and only if it is calm. Calmness restricts events from outside: local stops, the loss of focus, deletions, clears, reloads, snooze and schedule calls, the renderer's stop of a snoozing active alert while something waits that lets the alert go, and reports of alerts that are not active. Of the handling of a notification it asks nothing but the disk's answer, and no SNOOZED handler finds a missing active alert. |
| `ClosedScheduler.CalmRunKeepsGood` | app/alexa/src/main/cpp/acsdk_alerts/AlertScheduler.cpp:40-45 | Over every calm run the scheduler's invariant holds and no SNOOZED handler finds a missing active alert, with nothing assumed of the notifications themselves. |
| `ClosedScheduler.InitiallyGood` | app/alexa/src/main/cpp/acsdk_alerts/AlertScheduler.cpp:36-39 | A new scheduler over a well-formed table, with nothing waiting, is where calm runs may start. |
| `ClosedScheduler.InboxIff` | app/alexa/src/main/cpp/acsdk_alerts/AlertScheduler.cpp:303-364 | The part about what waits: a SNOOZED waits only for the active, resting alert and before anything that lets it go; a STOPPED never waits for a queued alert. |
| `ClosedScheduler.CallbackReports` | app/alexa/src/main/cpp/acsdk_alerts/Alert.cpp:279-299 | A callback reports a snooze exactly when the renderer stops a snoozing alert, a stop exactly when it stops a stopping one, neither after the timer expired. |
| `ClosedScheduler.HandledInbox` | app/alexa/src/main/cpp/acsdk_alerts/AlertScheduler.cpp:303-364 | Handling the oldest notification leaves the others in order. |
| `SchedulerCompletions.EventKeepsCompletionsIff` | app/alexa/src/main/cpp/acsdk_alerts/AlertScheduler.cpp:329-334 | Each waiting COMPLETED is the active alert's own, with nothing before it that lets the alert go or requeues it: every event keeps this if and only if it deletes no active alert whose COMPLETED waits and adds no COMPLETED of another alert or behind such a notification. |
| `SchedulerCompletions.RunKeepsOwnCompletions` | app/alexa/src/main/cpp/acsdk_alerts/AlertScheduler.cpp:329-334 | It holds, with the whole invariant, in every state that runs of such calm events reach. |
| `SchedulerCompletions.OwnCompletionDropsItsAlert` | app/alexa/src/main/cpp/acsdk_alerts/AlertScheduler.cpp:329-334 | Handling such a COMPLETED removes its own alert and no other, although the handler compares no tokens. |
| `SchedulerCompletions.SecondCompletionDropsTheHead` | app/alexa/src/main/cpp/acsdk_alerts/AlertScheduler.cpp:329-334 | From any state in order, by calm events only: the renderer reports completion twice, the first report is handled, a change of focus activates the head, and the second report lets the head go, which nobody completed. |
| `SchedulerMaps.RunKeepsBuilt` | app/alexa/src/main/cpp/acsdk_alerts/Alert.cpp:406-430 | Over every run of events, calm or not: in each asset map, in memory and on record, every asset lies under its own id, but for the empty ones that the indexing operator inserts; so no two assets of a row clash when a load re-keys them. |
| `SchedulerMaps.EventKeepsBuilt` | app/alexa/src/main/cpp/acsdk_alerts/Storage/SQLiteAlertStorage.cpp:576-578 | Each event keeps this, by parsing, starting, storing, loading and updating alike. |
| `SchedulerMaps.DirectiveDriftsIff` | app/alexa/src/main/cpp/acsdk_alerts/AlertsCapabilityAgent.cpp:295-345 | A SetAlert takes the stored assets out of step with memory only by handing a queued alert others: it never stores an asset under a foreign key. |
| `SchedulerFailures.LocalStopBehindSnoozeStrands` | app/alexa/src/main/cpp/acsdk_alerts/AlertScheduler.cpp:279-283 | From any state in order: a ringing alert is snoozed, the renderer stops, a local stop follows, the renderer stops again; handled in the order sent, SNOOZED leaves everything in order and STOPPED leaves the alert queued without a row. |
| `SchedulerFailures.SnoozeBehindError` | app/alexa/src/main/cpp/acsdk_alerts/Alert.cpp:314-317 | An alert whose failure is reported and not handled yet can still be snoozed: ERROR waits before SNOOZED. |
| `SchedulerFailures.SnoozeBehindErrorFindsNothing` | app/alexa/src/main/cpp/acsdk_alerts/AlertScheduler.cpp:335-338 | Handling that ERROR lets the alert go, and the SNOOZED handler finds no active alert. |
| `SchedulerFailures.DeleteAllBehindSnoozeFindsNothing` | app/alexa/src/main/cpp/acsdk_alerts/AlertScheduler.cpp:224-227 | So it does after a bulk deletion of the active alert while its SNOOZED waits. |
| `SchedulerFailures.UnscheduledReloadQueuesActive` | app/alexa/src/main/cpp/acsdk_alerts/AlertScheduler.cpp:140-146 | A reload without scheduling of a fully loadable table queues the active alert's token a second time. |
| `SchedulerFailures.UnstoredSnoozeDisagrees` | app/alexa/src/main/cpp/acsdk_alerts/AlertScheduler.cpp:335-337 | A snooze to another time that the disk refuses leaves the queued alert and its row with different times. |
| `SchedulerFailures.UpdatedAssetsAreLost` | app/alexa/src/main/cpp/acsdk_alerts/Storage/SQLiteAlertStorage.cpp:602-634 | After a successful update with other assets the row has the new time and the old assets, and these are what the next load brings back. |
| `SchedulerWakeups.StepLosesNoWakeup` | app/alexa/src/main/cpp/acsdk_alerts/AlertScheduler.cpp:67-413 | After every operation on a state with this property, whichever of the twelve kinds it is: if scheduling is on, nothing is active and the queue is not empty, then the timer is armed for the head's own time or READY for the head at its present time was submitted. Beside the property before, only a working clock and timer are needed. |
| `SchedulerWakeups.SetTimerServesHeadIff` | app/alexa/src/main/cpp/acsdk_alerts/AlertScheduler.cpp:383-413 | One setting of the timer serves the head if and only if the clock answers and either the head is due or the timer starts. |
| `SchedulerOrder.StepKeepsOrder` | app/alexa/src/main/cpp/acsdk_alerts/Alert.h:145-150 | No operation, guarded or not, can break the strict (time, token) order of the set of mutable alerts. |
| `SchedulerOrder.RunKeepsOrder` | app/alexa/src/main/cpp/acsdk_alerts/Alert.h:145-150 | The same over every run. |
| `SchedulerOrder.DrainStep` | app/alexa/src/main/cpp/acsdk_alerts/AlertScheduler.cpp:418-429 | An operation that neither inserts nor re-times only loses keys, and what it activates is the least of all alerts queued at that moment. |
| `SchedulerOrder.DrainingSorts` | app/alexa/src/main/cpp/acsdk_alerts/AlertScheduler.cpp:239-264 | In every run without insertions, re-timings and snoozes, the activated alerts come in strictly ascending (time, token) order. |
| `AlertOrdering.BeforeTransitive` | app/alexa/src/main/cpp/acsdk_alerts/Alert.h:145-150 | The comparator is transitive (with the next two: a strict total order on keys). |
| `AlertOrdering.BeforeTotal` | app/alexa/src/main/cpp/acsdk_alerts/Alert.h:145-150 | Any two different keys are ordered. |
| `AlertOrdering.BeforeAsymmetric` | app/alexa/src/main/cpp/acsdk_alerts/Alert.h:145-150 | Never both ways. |
| `AlertQueue.ContainsKey` | app/alexa/src/main/cpp/acsdk_alerts/AlertScheduler.cpp:92-92 | Lookup by comparator in a sorted set finds exactly the elements with the same time and token. |
| `AlertQueue.InsertNew` | app/alexa/src/main/cpp/acsdk_alerts/AlertScheduler.cpp:92-92 | Inserting an alert with a new token adds exactly that alert, in order. |
| `AlertQueue.RemoveMember` | app/alexa/src/main/cpp/acsdk_alerts/AlertScheduler.cpp:197-197 | Erasing takes out exactly that alert and leaves the order. |
| `AlertQueue.SortedUnique` | app/alexa/src/main/cpp/acsdk_alerts/AlertScheduler.cpp:149-155 | A sorted queue is determined by its elements, so an alert put back has one possible position. |
| `SchedulerConsistency.StepKeepsConsistencyIff` | app/alexa/src/main/cpp/acsdk_alerts/AlertScheduler.cpp:67-364 | Each operation keeps order, token distinctness and row ownership if and only if its caller-checkable guard holds. |
| `SchedulerConsistency.ScheduleKeepsIff` | app/alexa/src/main/cpp/acsdk_alerts/AlertScheduler.cpp:67-95 | Scheduling keeps them except when it stores an alert whose time was never converted. |
| `SchedulerConsistency.ReloadKeepsIff` | app/alexa/src/main/cpp/acsdk_alerts/AlertScheduler.cpp:96-148 | Reloading keeps them except for a reload without scheduling that loads the active alert's token, which only the scheduling branch filters out. |
| `SchedulerConsistency.StoppedKeepsIff` | app/alexa/src/main/cpp/acsdk_alerts/AlertScheduler.cpp:315-328 | A STOPPED notification keeps them except for a queued, inactive alert, whose row it erases while leaving it queued. |
| `SchedulerConsistency.SnoozedKeepsIff` | app/alexa/src/main/cpp/acsdk_alerts/AlertScheduler.cpp:335-341 | SNOOZED keeps them if and only if the stored row takes the new time, or already has it. |
| `SchedulerConsistency.ClearKeepsIff` | app/alexa/src/main/cpp/acsdk_alerts/AlertScheduler.cpp:284-292 | Clearing keeps them except when the table is really wiped under an active alert. |
| `SchedulerConsistency.DeleteAlertsKeeps` | app/alexa/src/main/cpp/acsdk_alerts/AlertScheduler.cpp:201-234 | Bulk deletion always keeps them. |
| `SchedulerConsistency.UpdateKeeps` | app/alexa/src/main/cpp/acsdk_alerts/AlertScheduler.cpp:149-174 | Updating a queued alert always keeps them, rolled back or not. |
| `SchedulerMirror.StepKeepsMirrorIff` | app/alexa/src/main/cpp/acsdk_alerts/AlertScheduler.cpp:67-364 | Every safe operation keeps the stored asset configurations in step with memory, and such that a load gives them back, if and only if it is neither an update that takes over assets stored differently, nor the storing of an asset under a foreign key, nor a renderer start that inserts a missing asset. |
| `SchedulerMirror.RunKeepsMirror` | app/alexa/src/main/cpp/acsdk_alerts/Storage/SQLiteAlertStorage.cpp:383-447 | In every state reached without such drift each queued alert has a row with its token, time and assets. |
| `SchedulerMirror.ScheduleMirrorsIff` | app/alexa/src/main/cpp/acsdk_alerts/Storage/SQLiteAlertStorage.cpp:602-634 | Scheduling breaks the mirror exactly when it hands a queued alert assets that would be stored differently, a modification writing state and time only, or stores a new alert with an asset under a foreign key. |
| `SchedulerMirror.StartedMirrorsIff` | app/alexa/src/main/cpp/acsdk_alerts/Alert.cpp:406-430 | A renderer start keeps the mirror if and only if every asset it reads is in the map. |
| `SchedulerQuiet.StepKeepsQuietIff` | app/alexa/src/main/cpp/acsdk_alerts/AlertScheduler.cpp:67-364 | No queued alert becomes ACTIVATING or ACTIVE and no row becomes ACTIVATING, if and only if a guard on stored, reloaded and snoozed alerts holds: a ringing alert is the active one or was detached. |
| `SchedulerQuiet.StepKeepsFocusAgreement` | app/alexa/src/main/cpp/acsdk_alerts/AlertScheduler.cpp:239-264 | An active alert's focus equals the scheduler's, whenever that is not NONE, after every operation. |
| `SchedulerPopulation.StepPopulation` | app/alexa/src/main/cpp/acsdk_alerts/AlertScheduler.cpp:67-364 | For every operation but a reload, exactly which tokens are known afterwards: no alert is lost or invented, and activation and SNOOZED change nothing. |
| `SchedulerPopulation.TerminalNoteRemovesExactlyItsAlert` | app/alexa/src/main/cpp/acsdk_alerts/AlertScheduler.cpp:315-363 | STOPPED, COMPLETED or ERROR for the active token removes that alert and its row and leaves queue and other rows as they were. |
| `SchedulerPopulation.LateCompletionDropsAnotherAlert` | app/alexa/src/main/cpp/acsdk_alerts/AlertScheduler.cpp:329-334 | COMPLETED compares no tokens: a late one drops whatever is active, and removes its own alert only if that is the active one. |
| `SchedulerPopulation.ActiveTokenIsNotRescheduled` | app/alexa/src/main/cpp/acsdk_alerts/AlertScheduler.cpp:79-89 | While its row is stored, the active token cannot be scheduled a second time, although duplicates are sought only in the queue. |
| `SchedulerPopulation.ClearedTokenIsRescheduled` | app/alexa/src/main/cpp/acsdk_alerts/AlertScheduler.cpp:284-292 | After the data were cleared under an active alert, its token is both active and queued once it is scheduled again. |
| `SchedulerUpdates.UpdatedAlertIsAllOrNothing` | app/alexa/src/main/cpp/acsdk_alerts/AlertScheduler.cpp:149-174 | The alert an update leaves: new time and assets on success, old time on failure, old assets unless the rollback was refused; the state becomes SET exactly when the time could be updated. |
| `SchedulerUpdates.FailedUpdateRestoresIff` | app/alexa/src/main/cpp/acsdk_alerts/AlertScheduler.cpp:167-172 | A failed update restores time and assets if and only if it did not have to restore a configuration that fails validation. |
| `SchedulerUpdates.UpdateIsATransaction` | app/alexa/src/main/cpp/acsdk_alerts/AlertScheduler.cpp:149-174 | Whatever happens the alert is back in the queue at its place, all others untouched; only success writes its row, and of it only state and time. |
| `SchedulerUpdates.UpdateMirrorsAssetsIff` | app/alexa/src/main/cpp/acsdk_alerts/Storage/SQLiteAlertStorage.cpp:602-634 | A successful update leaves the stored assets right if and only if it did not change them. |
| `SchedulerUpdates.ScheduleDeleteRoundTrip` | app/alexa/src/main/cpp/acsdk_alerts/AlertScheduler.cpp:184-200 | Scheduling a new alert and deleting it restores queue, table, active alert and focus exactly. |
| `SchedulerUpdates.RoundTripServesTheHead` | app/alexa/src/main/cpp/acsdk_alerts/AlertScheduler.cpp:383-413 | And leaves timer or READY set for the original head. |
| `SchedulerDeletion.DeleteAlertsSucceedsIff` | app/alexa/src/main/cpp/acsdk_alerts/AlertScheduler.cpp:201-223 | A bulk deletion succeeds if and only if it names nothing in memory, or the disk serves it and no alert in memory is listed twice. |
| `SchedulerDeletion.DeleteAlertsFilters` | app/alexa/src/main/cpp/acsdk_alerts/AlertScheduler.cpp:201-234 | On success exactly the unlisted alerts and rows remain, and the active alert goes iff listed; on failure nothing changes. |
| `SchedulerDeletion.DeleteAlertsIgnoresOrder` | app/alexa/src/main/cpp/acsdk_alerts/AlertScheduler.cpp:206-219 | The outcome does not depend on the order of the list or on unknown tokens in it. |
| `SchedulerDeletion.NamedDistinctIff` | app/alexa/src/main/cpp/acsdk_alerts/AlertScheduler.cpp:206-219 | The collected list repeats an alert iff the tokens repeat one that is in memory. |
| `SchedulerReload.ReloadSplits` | app/alexa/src/main/cpp/acsdk_alerts/AlertScheduler.cpp:111-139 | A scheduling reload queues exactly the loaded alerts that are neither past due nor active, none of them ACTIVE, and erases or resets rows accordingly. |
| `SchedulerReload.ReloadCountsRows` | app/alexa/src/main/cpp/acsdk_alerts/AlertScheduler.cpp:112-127 | With a working disk its two counters are the numbers of rows it erased and changed. |
| `SchedulerReload.ReloadIsIdempotentIff` | app/alexa/src/main/cpp/acsdk_alerts/AlertScheduler.cpp:96-139 | A second reload at the same clock value erases and resets nothing if and only if every row it reaches was reached by the first or is neither past due nor ACTIVE; then it changes no row. |
| `SchedulerReload.StableReloadIsIdempotent` | app/alexa/src/main/cpp/acsdk_alerts/Storage/SQLiteAlertStorage.cpp:522-525 | When the second query yields the surviving rows in the order of the first, it erases, resets and changes nothing, with no condition on the table. |
| `SchedulerReload.ReorderedReloadFindsWork` | app/alexa/src/main/cpp/acsdk_alerts/Storage/SQLiteAlertStorage.cpp:586-590 | In another order it may: a refused row hides a past-due one from the first query and not from the second. |
| `SchedulerReload.CompleteLoadLeavesNothing` | app/alexa/src/main/cpp/acsdk_alerts/Storage/SQLiteAlertStorage.cpp:504-595 | That condition holds for every table all of whose rows can be loaded, whatever the order of the rows. |
| `AlertRecords.EraseAllSucceedsIff` | app/alexa/src/main/cpp/acsdk_alerts/Storage/SQLiteAlertStorage.cpp:719-738 | A bulk erase succeeds iff all its tokens are stored and pairwise different, and leaves the rows of all other keys. |
| `AlertRecords.RepeatedAlertIsRefused` | app/alexa/src/main/cpp/acsdk_alerts/Storage/SQLiteAlertStorage.cpp:719-738 | Listing a stored alert twice makes the transaction roll back. |
| `AlertRecords.LoadIsCompleteIff` | app/alexa/src/main/cpp/acsdk_alerts/Storage/SQLiteAlertStorage.cpp:504-595 | A load brings back every row iff every row passes validation: the first refused row hides all that follow. |
| `AlertRecords.StoreLoadRoundTrip` | app/alexa/src/main/cpp/acsdk_alerts/Storage/SQLiteAlertStorage.cpp:572-581 | Storing and loading gives the alert's data, time and state back, and its whole content iff the loop pause fits 32 bits and every asset lies under its own id, by which a load keys it. |
| `AlertRecords.RekeyedKeepsAssets` | app/alexa/src/main/cpp/acsdk_alerts/Storage/SQLiteAlertStorage.cpp:576-578 | Re-keying a map in which no two assets have one id loses no asset and invents none. |
| `AlertRecords.StoreKeepsRows` | app/alexa/src/main/cpp/acsdk_alerts/Storage/SQLiteAlertStorage.cpp:383-447 | A new row gets a fresh key and leaves the table well formed. |
| `AlertRecords.NextIdIsUnique` | app/alexa/src/main/cpp/storage/SQLiteUtils.cpp:106-142 | Largest key plus one determines the new key. |
| `AlertRecords.AlertStorage.TableMaxIntValue` | app/alexa/src/main/cpp/storage/SQLiteUtils.cpp:106-142 | Computes the largest key, and 0 for an empty table. |
| `AlertRecords.AlertStorage.Store` | app/alexa/src/main/cpp/acsdk_alerts/Storage/SQLiteAlertStorage.cpp:383-447 | Refuses known tokens and unknown types, and otherwise adds exactly the alert's record under the next key. |
| `AlertRecords.AlertStorage.Modify` | app/alexa/src/main/cpp/acsdk_alerts/Storage/SQLiteAlertStorage.cpp:602-634 | Looks up the token but writes state and time of the row with the alert's key. |
| `AlertRecords.AlertStorage.Erase` | app/alexa/src/main/cpp/acsdk_alerts/Storage/SQLiteAlertStorage.cpp:635-718 | Looks up the token but removes the row with the alert's key. |
| `AlertRecords.AlertStorage.BulkErase` | app/alexa/src/main/cpp/acsdk_alerts/Storage/SQLiteAlertStorage.cpp:719-738 | All or nothing, by a loop inside a transaction. |
| `AlertRecords.BuiltIsKept` | app/alexa/src/main/cpp/acsdk_alerts/Storage/SQLiteAlertStorage.cpp:572-581 | Growing, storing and loading keep a map one in which every asset but empty ones lies under its own id. |
| `AlertRecords.ParsedIsBuilt` | app/alexa/src/main/cpp/acsdk_alerts/Alert.cpp:81-101 | A committed parse yields such a map, with no empty asset. |
| `AlertRecords.AlertStorage.LoadOne` | app/alexa/src/main/cpp/acsdk_alerts/Storage/SQLiteAlertStorage.cpp:556-590 | Builds the alert of a row under the re-keyed assets, or refuses it for its type, its assets or its loop count. |
| `AlertRecords.AlertStorage.Load` | app/alexa/src/main/cpp/acsdk_alerts/Storage/SQLiteAlertStorage.cpp:504-595 | Creates one new alert object for each row up to the first refused one. |
| `AlertRuns.RestartBudget` | app/alexa/src/main/cpp/acsdk_alerts/Alert.cpp:159-172 | Over every run of a new alert: renderer starts <= successful activations + focus changes while ringing + 1. |
| `AlertRuns.PotentialStep` | app/alexa/src/main/cpp/acsdk_alerts/Alert.cpp:253-326 | The amortisation: starts made plus starts the retry flags can still cause grow by no more than the step's charge. |
| `AlertRuns.RestartBudgetIsReached` | app/alexa/src/main/cpp/acsdk_alerts/Alert.cpp:308-325 | The extra start is spent: a first failure after an activation makes two starts. |
| `AlertRuns.NotificationAccounting` | app/alexa/src/main/cpp/acsdk_alerts/Alert.cpp:279-299 | STOPPED notifications never outnumber deactivations, SNOOZED ones never outnumber successful snoozes. |
| `AlertRuns.ExpiredAlertOnlyCompletes` | app/alexa/src/main/cpp/acsdk_alerts/Alert.cpp:431-437 | Once the maximum-length timer has fired no STOPPED or SNOOZED notification is ever sent again. |
| `AlertRuns.ExpiredStop` | app/alexa/src/main/cpp/acsdk_alerts/Alert.cpp:279-283 | After expiry a renderer stop yields COMPLETED. |
| `AlertRuns.RingingIsEnteredInOrder` | app/alexa/src/main/cpp/acsdk_alerts/Alert.cpp:173-200 | ACTIVE is entered exactly by `setStateActive` from ACTIVATING, and ACTIVATING exactly by a successful `activate`. |
| `AlertRuns.StartsSilentlyIff` | app/alexa/src/main/cpp/acsdk_alerts/Alert.cpp:322-325 | The renderer is started for an alert that does not ring if and only if a delayed restart is due: the restart looks at the state no more. |
| `AlertRuns.DecidedSilentlyIff` | app/alexa/src/main/cpp/acsdk_alerts/Alert.cpp:294-313 | Such a restart is decided exactly by a renderer stop that finds the flag of an earlier focus change set, or by a first rendering failure. |
| `AlertRuns.SnoozedAlertRestartsIff` | app/alexa/src/main/cpp/acsdk_alerts/Alert.cpp:364-373 | The flag outlives a snooze: after the snooze and two renderer stops the renderer is started for the snoozed alert iff the flag was set before. |
| `AlertRuns.FocusChangeThenSnoozeStarts` | app/alexa/src/main/cpp/acsdk_alerts/Alert.cpp:168-171 | A focus flip of an ACTIVE alert sets that flag. |
| `AlertRuns.RingingWasActivated` | app/alexa/src/main/cpp/acsdk_alerts/Alert.cpp:186-200 | An alert that rings at the end of a run was activated successfully within it. |
| `AssetParsing.ParseAssetConfiguration` | app/alexa/src/main/cpp/acsdk_alerts/Alert.cpp:48-124 | Commits configuration and loop count iff the payload is acceptable, and then exactly what it describes; otherwise touches neither. |
| `AssetParsing.CollectAssets` | app/alexa/src/main/cpp/acsdk_alerts/Alert.cpp:81-101 | Refuses iff some entry is bad; otherwise the map holds exactly the listed ids with the urls listed last. |
| `AssetParsing.CollectOrder` | app/alexa/src/main/cpp/acsdk_alerts/Alert.cpp:102-114 | Refuses iff some item is no string or names no collected asset; otherwise keeps the order. |
| `AssetParsing.CommittedConfiguration` | app/alexa/src/main/cpp/acsdk_alerts/Alert.cpp:215-234 | Every play-order item of a committed configuration names a complete asset; the setters' validation accepts it iff its background asset is absent or listed. |
| `AssetParsing.ForegroundStartPlaysTheOrder` | app/alexa/src/main/cpp/acsdk_alerts/Alert.cpp:406-430 | A foreground start of a committed configuration passes exactly the play-order urls, in order, none empty, without growing the map. |
| `AssetParsing.BackgroundStartWithDanglingAsset` | app/alexa/src/main/cpp/acsdk_alerts/Alert.cpp:413-420 | A background start passes one empty url and grows the map iff the background asset is named but not listed. |
| `AssetParsing.StartGrowsAssetsIff` | app/alexa/src/main/cpp/acsdk_alerts/Alert.cpp:406-430 | A start leaves the asset map alone iff every id it reads is in it. |
| `AssetParsing.DuplicateEntriesAreAccepted` | app/alexa/src/main/cpp/acsdk_alerts/Alert.cpp:96-100 | Duplicates are sought in the old configuration: within one payload the last entry wins. |
| `AlertObject.Alert.ParseFromJson` | app/alexa/src/main/cpp/acsdk_alerts/Alert.cpp:125-143 | Token, time and assets are taken in that order; exactly which fields a refused payload still changes. |
| `AlertObject.Alert.SetFocusState` | app/alexa/src/main/cpp/acsdk_alerts/Alert.cpp:159-172 | Stops the renderer when ACTIVE, only notes the change when ACTIVATING. |
| `AlertObject.Alert.SetStateActive` | app/alexa/src/main/cpp/acsdk_alerts/Alert.cpp:173-181 | Succeeds from ACTIVATING only. |
| `AlertObject.Alert.Activate` | app/alexa/src/main/cpp/acsdk_alerts/Alert.cpp:186-200 | Starts the length timer and the renderer unless already ringing. |
| `AlertObject.Alert.Deactivate` | app/alexa/src/main/cpp/acsdk_alerts/Alert.cpp:201-208 | STOPPING, with the reason, and the timer stopped. |
| `AlertObject.Alert.UpdateScheduledTime` | app/alexa/src/main/cpp/acsdk_alerts/Alert.cpp:350-363 | Refused while ringing or stopping and for a malformed time; otherwise SET. |
| `AlertObject.Alert.Snooze` | app/alexa/src/main/cpp/acsdk_alerts/Alert.cpp:364-373 | Re-times and stops; refused for a malformed time only. |
| `AlertObject.Alert.SetAssetConfiguration` | app/alexa/src/main/cpp/acsdk_alerts/Alert.cpp:394-401 | Replaces the configuration iff it is valid. |
| `AlertObject.Alert.SetAlertData` | app/alexa/src/main/cpp/acsdk_alerts/Alert.cpp:235-252 | Replaces both parts or neither. |
| `AlertObject.Alert.OnRendererStateChange` | app/alexa/src/main/cpp/acsdk_alerts/Alert.cpp:253-326 | The lifecycle step, its notification and the decision to restart. |
| `AlertObject.Alert.RestartRenderer` | app/alexa/src/main/cpp/acsdk_alerts/Alert.cpp:322-325 | The delayed start that the callback decided on. |
| `AlertObject.Alert.StartRendererLocked` | app/alexa/src/main/cpp/acsdk_alerts/Alert.cpp:406-430 | The exact renderer call and the growth of the map by the ids it misses. |
| `AlertObject.Alert.OnMaxTimerExpiration` | app/alexa/src/main/cpp/acsdk_alerts/Alert.cpp:431-437 | STOPPING with the expiry noted. |
| `AlertObject.Alert.IsPastDue` | app/alexa/src/main/cpp/acsdk_alerts/Alert.cpp:438-442 | Strictly before now minus the limit. |
| `AlertObject.ValidateAssetConfiguration` | app/alexa/src/main/cpp/acsdk_alerts/Alert.cpp:219-234 | Answers exactly whether background asset and play order are represented. |
| `AlertSchedulerObject.AlertScheduler.ScheduleAlert` | app/alexa/src/main/cpp/acsdk_alerts/AlertScheduler.cpp:67-95 | Refines the model: guard order, update of a queued alert, or store, wire and insert. |
| `AlertSchedulerObject.AlertScheduler.ReloadAlertsFromDatabase` | app/alexa/src/main/cpp/acsdk_alerts/AlertScheduler.cpp:96-148 | Refines the model's reload over fresh alert objects, with both counters. |
| `AlertSchedulerObject.AlertScheduler.ScheduleLoaded` | app/alexa/src/main/cpp/acsdk_alerts/AlertScheduler.cpp:114-136 | The scheduling loop, with its counters. |
| `AlertSchedulerObject.AlertScheduler.UpdateAlert` | app/alexa/src/main/cpp/acsdk_alerts/AlertScheduler.cpp:149-174 | Erase, try, roll back, re-insert on live objects is the model's transaction. |
| `AlertSchedulerObject.AlertScheduler.TryUpdate` | app/alexa/src/main/cpp/acsdk_alerts/AlertScheduler.cpp:156-173 | What the guarded part leaves in alert and table on each of its four exits. |
| `AlertSchedulerObject.AlertScheduler.SnoozeAlert` | app/alexa/src/main/cpp/acsdk_alerts/AlertScheduler.cpp:175-183 | Answers true for the active token even for a malformed time. |
| `AlertSchedulerObject.AlertScheduler.DeleteAlert` | app/alexa/src/main/cpp/acsdk_alerts/AlertScheduler.cpp:184-200 | Stops the active alert or erases the queued one. |
| `AlertSchedulerObject.AlertScheduler.DeleteAlerts` | app/alexa/src/main/cpp/acsdk_alerts/AlertScheduler.cpp:201-234 | Collect, bulk erase, let go of the active alert, erase from the set, set the timer; the alert let go is STOPPING and the last its renderer heard is a stop. |
| `AlertSchedulerObject.AlertScheduler.IsAlertActive` | app/alexa/src/main/cpp/acsdk_alerts/AlertScheduler.cpp:430-435 | The token is active and rings. |
| `AlertSchedulerObject.AlertScheduler.UpdateFocus` | app/alexa/src/main/cpp/acsdk_alerts/AlertScheduler.cpp:239-264 | Deactivates, activates or relays, by the new focus. |
| `AlertSchedulerObject.AlertScheduler.ClearData` | app/alexa/src/main/cpp/acsdk_alerts/AlertScheduler.cpp:284-292 | Stops, notifies for every queued alert, empties queue and table. |
| `AlertSchedulerObject.AlertScheduler.ExecuteOnAlertStateChange` | app/alexa/src/main/cpp/acsdk_alerts/AlertScheduler.cpp:303-364 | Dispatches every notification to its handler. |
| `AlertSchedulerObject.AlertScheduler.OnStarted` | app/alexa/src/main/cpp/acsdk_alerts/AlertScheduler.cpp:308-314 | Marks and stores the active alert as ACTIVE. |
| `AlertSchedulerObject.AlertScheduler.OnStopped` | app/alexa/src/main/cpp/acsdk_alerts/AlertScheduler.cpp:315-328 | Erases the active alert, or only the row of a queued one. |
| `AlertSchedulerObject.AlertScheduler.OnCompleted` | app/alexa/src/main/cpp/acsdk_alerts/AlertScheduler.cpp:329-334 | Erases whatever is active. |
| `AlertSchedulerObject.AlertScheduler.OnSnoozed` | app/alexa/src/main/cpp/acsdk_alerts/AlertScheduler.cpp:335-341 | Stores and requeues whatever is active. |
| `AlertSchedulerObject.AlertScheduler.OnError` | app/alexa/src/main/cpp/acsdk_alerts/AlertScheduler.cpp:347-362 | Erases the active alert or the queued one with the token. |
| `AlertSchedulerObject.AlertScheduler.SetTimerForNextAlert` | app/alexa/src/main/cpp/acsdk_alerts/AlertScheduler.cpp:383-413 | Stops the timer, then announces or arms for the head. |
| `AlertSchedulerObject.AlertScheduler.OnAlertReady` | app/alexa/src/main/cpp/acsdk_alerts/AlertScheduler.cpp:414-417 | The timer's firing announces the alert it was armed for. |
| `AlertSchedulerObject.AlertScheduler.ActivateNextAlert` | app/alexa/src/main/cpp/acsdk_alerts/AlertScheduler.cpp:418-429 | Moves the head to the active place with the scheduler's focus, and activates it. |
| `AlertSchedulerObject.AlertScheduler.EraseAlert` | app/alexa/src/main/cpp/acsdk_alerts/AlertScheduler.cpp:449-461 | Notifies only when the storage erased. |
| `AlertSchedulerObject.AlertScheduler.InsertScheduled` | app/alexa/src/main/cpp/acsdk_alerts/AlertScheduler.cpp:92-92 | Insertion by comparator into the set of live objects. |
| `AlertSchedulerObject.AlertScheduler.EraseScheduled` | app/alexa/src/main/cpp/acsdk_alerts/AlertScheduler.cpp:151-151 | Erasure by comparator; in a sorted set it removes that very object. |
| `AlertsCapabilityAgent.SetAlertKeepsInvariant` | app/alexa/src/main/cpp/acsdk_alerts/AlertsCapabilityAgent.cpp:295-345 | Whatever a SetAlert directive carries, it keeps the whole scheduler invariant: no guard is needed. |
| `AlertsCapabilityAgent.SetAlertOutcome` | app/alexa/src/main/cpp/acsdk_alerts/AlertsCapabilityAgent.cpp:326-344 | A SetAlert touches no alert but its own. Answered true, that alert is in memory with the directive's time, snoozed if it was ringing and else with the directive's assets; answered false, as for an active alert that no longer rings, no time and no row has changed and no alert has come or gone. |
| `AlertsCapabilityAgent.AlertsCapabilityAgent.HandleSetAlert` | app/alexa/src/main/cpp/acsdk_alerts/AlertsCapabilityAgent.cpp:295-345 | Refuses missing or unknown types and unparsable payloads; otherwise snoozes or schedules the parsed alert, and tells the observers of the agent when that succeeded. |
| `AlertVolume.StepSettlesIff` | app/alexa/src/main/cpp/acsdk_alerts/AlertsCapabilityAgent.cpp:580-640 | While nothing sounds, the alerts volume is what is or will be reported; a step breaks this if and only if it is a stop that overtakes an announcement not yet taken up. |
| `AlertVolume.RunSettlesIff` | app/alexa/src/main/cpp/acsdk_alerts/AlertsCapabilityAgent.cpp:580-640 | That agreement holds in every state of a run if and only if no stop of the run overtakes an announcement. |
| `AlertVolume.RunRestores` | app/alexa/src/main/cpp/acsdk_alerts/AlertsCapabilityAgent.cpp:620-638 | After such a run the volume equals the last reported one whenever nothing sounds and every announcement is taken up. |
| `AlertVolume.OvertakenChangeIsMisreported` | app/alexa/src/main/cpp/acsdk_alerts/AlertsCapabilityAgent.cpp:729-735 | Otherwise a local change made while sounding is reported although the stop undid it. |
| `AlertVolume.OnlyDirectivesReport` | app/alexa/src/main/cpp/acsdk_alerts/AlertsCapabilityAgent.cpp:729-735 | While an alert sounds only directives change the last reported volume. |
| `AlertVolume.DirectiveIsLossless` | app/alexa/src/main/cpp/acsdk_alerts/AlertsCapabilityAgent.cpp:716-728 | A directive sets and reports the nearest volume in range; the narrowing to 8 bits loses nothing. |
| `AlertVolume.Clamp` | app/alexa/src/main/cpp/avs/SpeakerConstants/SpeakerConstants.h:11-12 | Lands within the bounds and moves only volumes outside them. |
| `AlertVolume.LatestNotificationDecides` | app/alexa/src/main/cpp/acsdk_alerts/AlertsCapabilityAgent.cpp:620-638 | The sounding mark follows the latest notification, whichever alert it is about. |
| `AlertsCapabilityAgent.AlertsCapabilityAgent.SetNextAlertVolume` | app/alexa/src/main/cpp/acsdk_alerts/AlertsCapabilityAgent.cpp:716-728 | Clamps, sets the channel and reports. |
| `AlertsCapabilityAgent.AlertsCapabilityAgent.HandleAdjustVolume` | app/alexa/src/main/cpp/acsdk_alerts/AlertsCapabilityAgent.cpp:402-419 | Adds to the channel's present volume, and fails without an effect when the speaker manager does not tell it. |
| `AlertsCapabilityAgent.AlertsCapabilityAgent.ExecuteOnAlertStateChange` | app/alexa/src/main/cpp/acsdk_alerts/AlertsCapabilityAgent.cpp:580-640 | Marks sounding and sets the reported volume when the content is louder; restores on the first other notification; acquires the channel on READY and releases it at an end, if there is focus; tells the observers of the agent. |
| `AlertsCapabilityAgent.AlertsCapabilityAgent.ExecuteOnFocusManagerFocusChanged` | app/alexa/src/main/cpp/acsdk_alerts/AlertsCapabilityAgent.cpp:559-579 | Restores a raised volume when both channels are quiet and the speaker manager tells the present one. |
| `AlertsCapabilityAgent.AlertsCapabilityAgent.ExecuteOnSpeakerSettingsChanged` | app/alexa/src/main/cpp/acsdk_alerts/AlertsCapabilityAgent.cpp:729-735 | Reports a change unless an alert sounds. |
| `AlertOrdering.BeforeIsEarlier` | app/alexa/src/main/cpp/acsdk_alerts/Alert.h:145-150 | The comparator puts the smaller Unix time first and, at one time, the token that is smaller at the first difference or is a proper prefix. |
| `AlertQueue.SortedByTime` | app/alexa/src/main/cpp/acsdk_alerts/Alert.h:145-150 | Along a sorted queue the Unix times never decrease, and at one time the tokens ascend. |
| `AlertQueue.InsertedByTime` | app/alexa/src/main/cpp/acsdk_alerts/AlertScheduler.cpp:92-92 | An alert is inserted behind exactly the earlier ones. |
| `SchedulerEffects.EarliestIsServed` | app/alexa/src/main/cpp/acsdk_alerts/AlertScheduler.cpp:383-413 | What the timer is armed for, or has announced, is a queued alert with its own time, and no queued alert's time is smaller. |
| `SchedulerEffects.TimerKeepsTime` | app/alexa/src/main/cpp/acsdk_alerts/AlertScheduler.cpp:383-413 | The timer is armed only for times to come and READY sent only for times that have come; nothing is set under an active alert or for an empty queue, and one of the two always is otherwise. |
| `SchedulerEffects.EarliestIsActivated` | app/alexa/src/main/cpp/acsdk_alerts/AlertScheduler.cpp:418-429 | The activated alert's Unix time is at most that of every alert that was queued, with the least token among equals. |
| `SchedulerEffects.DrainingRunsForwards` | app/alexa/src/main/cpp/acsdk_alerts/AlertScheduler.cpp:239-264 | In every run without insertions, re-timings and snoozes, the Unix times of the activated alerts never decrease, and at one time their tokens ascend. |
| `SchedulerEffects.TooLateIsRefused` | app/alexa/src/main/cpp/acsdk_alerts/Alert.cpp:438-442 | An alert more than the limit in the past, or without a clock, changes nothing and is answered with false. |
| `SchedulerEffects.InTimeIsScheduled` | app/alexa/src/main/cpp/acsdk_alerts/AlertScheduler.cpp:67-95 | A new alert of a known type no further back than the limit is queued, wired, and stored with its time, when the disk serves it and no row has its token. |
| `SchedulerEffects.ReloadByTime` | app/alexa/src/main/cpp/acsdk_alerts/AlertScheduler.cpp:111-139 | A loaded alert that is not active is queued by a scheduling reload if and only if its Unix time is no further back than the limit; otherwise its row goes exactly if the disk serves it. |
| `SchedulerEffects.ReloadRenews` | app/alexa/src/main/cpp/acsdk_alerts/AlertScheduler.cpp:123-134 | What a scheduling reload queues has the identity, time and assets of its row, is wired, and is SET if its row said ACTIVE. |
| `SchedulerEffects.ReloadSetsTheSwitch` | app/alexa/src/main/cpp/acsdk_alerts/AlertScheduler.cpp:96-110 | The switch is set even without a clock; then nothing else happens. Without scheduling no row changes and no timer runs. |
| `AlertEffects.RendererHears` | app/alexa/src/main/cpp/acsdk_alerts/Alert.cpp:159-208 | Every operation tells the renderer exactly one stop, exactly one start or nothing: a stop on deactivation, timer expiry, a successful snooze, a focus change while ACTIVE, and a start report that came too late or behind a focus change. |
| `AlertEffects.StartAsksFor` | app/alexa/src/main/cpp/acsdk_alerts/Alert.cpp:406-431 | What a start asks for, field by field: length, urls, loop count and pause in foreground and background, the initial pause of a background restart, and no url after a failure. |
| `AlertEffects.StateLeft` | app/alexa/src/main/cpp/acsdk_alerts/Alert.cpp:159-326 | The state that each of the eleven operations leaves, as a function of the state before. |
| `AlertEffects.LengthTimer` | app/alexa/src/main/cpp/acsdk_alerts/Alert.cpp:186-208 | The length timer runs from an activation to a deactivation or its expiry; a snooze leaves it running. The expiry is remembered for ever. |
| `AlertEffects.RestartFlags` | app/alexa/src/main/cpp/acsdk_alerts/Alert.cpp:253-326 | When the flags that steer restarts are set and cleared, over all operations. |
| `AlertEffects.EventReported` | app/alexa/src/main/cpp/acsdk_alerts/Alert.cpp:253-326 | What an alert reports of a start, a failure and a stop, and in which words. |
| `AlertEffects.FocusChangeIsHeard` | app/alexa/src/main/cpp/acsdk_alerts/Alert.cpp:159-172 | A focus change while ACTIVE comes to a stop and then a start for the new focus, with nothing reported and the alert still ACTIVE. |
| `AlertEffects.EarlyFocusChangeIsHeard` | app/alexa/src/main/cpp/acsdk_alerts/Alert.cpp:253-278 | One while ACTIVATING waits for the renderer's start, then comes to the same. |
| `SchedulerEffects.DeletedActiveIsStopped` | app/alexa/src/main/cpp/acsdk_alerts/AlertScheduler.cpp:184-200 | Deleting the active alert leaves it STOPPING for the service's reason, with a stop as the renderer's last call and no row touched. |
| `SchedulerEffects.FocusLossStops` | app/alexa/src/main/cpp/acsdk_alerts/AlertScheduler.cpp:239-264 | Losing the focus stops the active alert as a local stop, renderer included. |
| `SchedulerEffects.LocalStopStops` | app/alexa/src/main/cpp/acsdk_alerts/AlertScheduler.cpp:279-283 | So does a local stop. |
| `SchedulerEffects.ClearStops` | app/alexa/src/main/cpp/acsdk_alerts/AlertScheduler.cpp:284-292 | Clearing stops it for the given reason, empties queue and timer, and wipes the table exactly if the disk serves it. |
| `SchedulerEffects.StartedMakesActive` | app/alexa/src/main/cpp/acsdk_alerts/AlertScheduler.cpp:308-314 | STARTED for an ACTIVATING alert makes it ACTIVE, changes nothing else of it and passes the note on; at any other time it changes nothing. |
| `SchedulerEffects.StartedIsStored` | app/alexa/src/main/cpp/acsdk_alerts/AlertScheduler.cpp:308-314 | That alert's own row says ACTIVE if and only if the disk serves it; all other rows stay. |
| `SchedulerEffects.FocusThenStartedRings` | app/alexa/src/main/cpp/acsdk_alerts/AlertScheduler.cpp:239-264 | Focus gained, renderer started, report handled: the head of the queue is told to start, then ACTIVE in memory and on record. |
| `SchedulerEffects.FocusIsTaken` | app/alexa/src/main/cpp/acsdk_alerts/AlertScheduler.cpp:239-264 | Every focus is taken over, reaches the active alert, and activates the head when none is active. |
| `SchedulerEffects.SnoozeReachesTheActive` | app/alexa/src/main/cpp/acsdk_alerts/AlertScheduler.cpp:175-183 | A snooze re-times and stops the active alert of that token, renderer included, and changes nothing else. |
| `SchedulerEffects.UpdateSucceedsIff` | app/alexa/src/main/cpp/acsdk_alerts/AlertScheduler.cpp:149-174 | An update succeeds if and only if the time converts, the alert neither rings nor is stopping, every named asset is complete, and the disk serves it. |
| `SchedulerNotices.TimerAnnounces` | app/alexa/src/main/cpp/acsdk_alerts/AlertScheduler.cpp:383-413 | READY for the head is sent exactly when scheduling is on, nothing is active, the clock answers and the head is due. |
| `SchedulerNotices.StoppedIsTold` | app/alexa/src/main/cpp/acsdk_alerts/AlertScheduler.cpp:315-328 | What is sent on STOPPED, in order: the note, the deletion of its alert if erased, at most a READY. |
| `SchedulerNotices.CompletedIsTold` | app/alexa/src/main/cpp/acsdk_alerts/AlertScheduler.cpp:329-334 | The same for COMPLETED and whatever is active. |
| `SchedulerNotices.SnoozedIsTold` | app/alexa/src/main/cpp/acsdk_alerts/AlertScheduler.cpp:335-341 | The same for SNOOZED, without a deletion. |
| `SchedulerNotices.ErrorIsTold` | app/alexa/src/main/cpp/acsdk_alerts/AlertScheduler.cpp:342-360 | ERROR is passed on last, behind the deletion of its alert. |
| `SchedulerNotices.FocusIsTold` | app/alexa/src/main/cpp/acsdk_alerts/AlertScheduler.cpp:239-264 | Exactly the focus changes of a lasting active alert are told, as entered foreground or background. |
| `SchedulerNotices.DeletionIsTold` | app/alexa/src/main/cpp/acsdk_alerts/AlertScheduler.cpp:184-200 | The deletion of a queued alert is told exactly if the disk erased it; the stopping of the active one is not. |
| `SchedulerNotices.DeleteAlertsIsTold` | app/alexa/src/main/cpp/acsdk_alerts/AlertScheduler.cpp:201-234 | A bulk deletion tells one deletion for each listed token in memory, in the order of the list, or nothing if it fails. |
| `SchedulerNotices.ClearIsTold` | app/alexa/src/main/cpp/acsdk_alerts/AlertScheduler.cpp:284-292 | Clearing tells the deletion of every queued alert, in order, and no other. |
| `SchedulerNotices.ReloadIsTold` | app/alexa/src/main/cpp/acsdk_alerts/AlertScheduler.cpp:111-139 | A scheduling reload tells of every loaded alert that is not active: past due if its time is more than the limit back, otherwise scheduled for later, with its time. |
| `SchedulerNotices.TimerFiringIsTold` | app/alexa/src/main/cpp/acsdk_alerts/AlertScheduler.cpp:449-461 | The firing timer announces the alert it was armed for and is armed no longer. |
| `AlertRecords.RefusedIff` | app/alexa/src/main/cpp/acsdk_alerts/Storage/SQLiteAlertStorage.cpp:504-595 | Which rows a load refuses: unknown type, negative loop count, or a background asset or play-order item without a complete asset. |
| `AlertRecords.LoadedTimeIs` | app/alexa/src/main/cpp/acsdk_alerts/Storage/SQLiteAlertStorage.cpp:572-572 | A row's time is converted again from its text; one that cannot be converted leaves time zero. |
| `AssetParsing.GoodPayloadIsAccepted` | app/alexa/src/main/cpp/acsdk_alerts/Alert.cpp:48-124 | A payload with complete, new entries, a play order naming them and a fitting loop count is accepted. |
| `AssetParsing.BadEntryIsRefused` | app/alexa/src/main/cpp/acsdk_alerts/Alert.cpp:48-124 | One incomplete or already configured entry refuses the whole payload. |
| `AssetParsing.BadRestIsRefused` | app/alexa/src/main/cpp/acsdk_alerts/Alert.cpp:48-124 | So do a missing array, a play-order item that names no entry, and an oversized loop count. |
| `AssetParsing.CommittedRest` | app/alexa/src/main/cpp/acsdk_alerts/Alert.cpp:48-124 | Play order, background asset and pause of a committed configuration, with the defaults of what is missing. |
| `AlertsCapabilityAgent.ChannelIsAcquiredAndReleased` | app/alexa/src/main/cpp/acsdk_alerts/AlertsCapabilityAgent.cpp:580-606 | Over any run of notifications the channel is acquired exactly once for each READY and released exactly once for each stop, completion, snooze or error under focus, and at no other. |
| `AlertVolume.SoundingYields` | app/alexa/src/main/cpp/acsdk_alerts/AlertsCapabilityAgent.cpp:620-631 | When an alert starts to sound, the channel is set to the reported volume exactly if another channel is active and known to be louder. |
| `AlertVolume.EndingRestores` | app/alexa/src/main/cpp/acsdk_alerts/AlertsCapabilityAgent.cpp:632-638 | When it ends, the volume is the reported one again, unannounced; otherwise nothing changes. |
| `AlertVolume.QuietRestores` | app/alexa/src/main/cpp/acsdk_alerts/AlertsCapabilityAgent.cpp:559-579 | A raised volume is taken back exactly when both other channels are quiet under a sounding alert and the volume is known. |
| `AlertVolume.AdjustmentMoves` | app/alexa/src/main/cpp/acsdk_alerts/AlertsCapabilityAgent.cpp:402-419 | An adjustment moves the volume by that much, cut off at 0 and 100, and reports where it got to. |
| `SchedulerEffects.NothingWakesBeforeTheLoad` | app/alexa/src/main/cpp/acsdk_alerts/AlertScheduler.cpp:36-39 | A new scheduler arms no timer and announces no alert in any run before the first load that asks for scheduling. |
| `SchedulerEffects.ActiveTokenIsNotUpdated` | app/alexa/src/main/cpp/acsdk_alerts/AlertScheduler.cpp:79-89 | An alert whose token is both queued and active is refused without an effect, in any state. |
| `SchedulerEffects.ExpiryStops` | app/alexa/src/main/cpp/acsdk_alerts/Alert.cpp:431-437 | The expiry of the length timer stops the alert it belongs to, active or queued, renderer included, and touches no other. |
| `AlertsCapabilityAgent.StoredDirectiveIsBackIff` | app/alexa/src/main/cpp/acsdk_alerts/Storage/SQLiteAlertStorage.cpp:586-590 | A SetAlert stored beside loadable rows is loaded again, whatever the order of the rows, if and only if its 32-bit loop count is not negative and its background asset is listed, neither of which is asked when it is scheduled. |
| `AlertsCapabilityAgent.DirectiveLoadsIff` | app/alexa/src/main/cpp/acsdk_alerts/Alert.cpp:48-124 | The row of a parsed alert passes the load's validation under exactly that condition; a payload whose asset part was refused always does. |

## Left out

- AlertRecords.AlertStorage.Store: a failed store changes nothing; that the alert's row may land before an asset row fails is not modelled, since the rows of the three tables of one alert are one record here.
- AlertRecords.AlertStorage.Erase: a failed erase changes nothing; that the alert's row may go before its asset rows fail to, which would leave them to a later alert with the same key, is not modelled for the same reason.
- AlertRecords.AlertStorage.LoadOne: which of several different assets with one id a load keeps, that of the last row of the asset table, is not modelled; no map of a reachable state has two (`RunKeepsBuilt`).
- AlertRecords.AlertStorage.ClearDatabase: a failed wipe changes nothing; that the alert rows may be gone when clearing an asset table fails is not modelled, since the three tables are one here.
- AlertSchedulerObject.AlertScheduler.ClearData: nor is it here, where the wipe is the storage's.
- SchedulerConsistency.ClearKeepsIff: a wipe that fails between the tables counts as one that failed altogether.
- AlertQueue.ContainsKey: the balanced tree inside the ordered set is not modelled; the set is the sequence of its elements, searched by the comparator.
- AlertObject.Alert.OnRendererStateChange: the 75 ms pause before a restart is the gap between this step and `RestartRenderer`, in which any other operation may happen.
- AlertObject.Alert.Snooze: the methods that use the renderer require it to be set, since the code dereferences it unconditionally; the scheduler class keeps every alert it holds wired.
- AlertObject.Alert.StartRendererLocked: the audio factories and the volume ramp flag of the renderer call are not modelled.
- AlertSchedulerObject.AlertScheduler.OnSnoozed: requires an active alert, because the handler puts the pointer into the ordered set, whose comparator or next use dereferences it.
- AlertSchedulerObject.AlertScheduler.ScheduleAlert: requires an alert object that the scheduler does not hold yet, as the SetAlert handler creates; and a queue in order, which `StepKeepsOrder` provides.
- AlertsCapabilityAgent.AlertsCapabilityAgent.HandleSetAlert: asks whether the alert is active and makes its call without anything in between; `Closed` has the calls as separate events too, before which anything may happen.
- AlertsCapabilityAgent.AlertsCapabilityAgent.HandleAdjustVolume: requires that the 64-bit sum does not overflow.
- AlertVolume.StepSettlesIff: assumes that setting a volume succeeds and that the speaker manager announces every volume set with notification.
- Conversion of ISO 8601 text is an arbitrary partial function; clock readings, timer starts and disk answers are inputs of each operation.
- Reading JSON, events, context, metrics, logging and diagnostics: input and output.
- Initialisation, shutdown and the migration of the old table: one-off sequences around the operations modelled.
- The renderer and the media player: their callbacks arrive in any order.
- Alerts that the scheduler has let go of may still call back; the alert theorems cover them, and `Closed` lets any such alert report at any time, under the condition `Fits`, without keeping a list of them.
- The handlers of DeleteAlert and DeleteAlerts directives only read tokens and forward to the scheduler; the volume ramp setting and connection handling are not modelled.
- The set of alert types: only the names ALARM, TIMER and REMINDER are modelled.
