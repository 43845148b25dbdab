# Verification

A Dafny model of the parts of the repository that keep state under failure and
interleaving, with proofs of what they guarantee and, where a natural guarantee
is false, of exactly when it holds.

* **Schedules** (`Schedule*.dfy`). The runtime is a state machine whose events
  are the pieces of code between two awaits; a dispatch may resolve, reject or
  stay pending for ever, and deletes, pauses and stops may fall anywhere.
  `ScheduleState` gives the steps, `ScheduleInvariant` what every step keeps,
  `ScheduleTheorems`, `ScheduleConsequences`, `ScheduleAbandonment` (discarded
  retries), `ScheduleWaiting` and `ScheduleStop` (who can still get a slot),
  `ScheduleDeletion` (dispatches after a delete) and `ScheduleOutcomes` (what a
  finished row means) what follows for whole runs of events. `ScheduleEffects`
  says what each event does to rows, promises and tables without the steps.
  `ScheduleRuns` says which runs the event loop can take: timers fire only when no
  continuation is left. `ScheduleExamples` leads a freshly booted manager into each
  of the failing cases by such a run. `ScheduleManager` holds the two classes with
  their fields; each method is proved to take exactly one step of the machine.
* **Capabilities** (`Capability*.dfy`). A transaction over a registry table and
  a directory tree. A step is one call together with the set of operations that
  fail in it; the service's methods perform the real sequence of renames, writes
  and deletions with their roll-back and are proved to have the step's net effect;
  `CapabilityEffects` says that effect field by field.
* **Structured memory** (`ParentChains`, `Checklist*`, `Memory*`, `Sorting`).
  The checklist checks, the tree renderer, the inverted index, the ranked query,
  the engine's exports, and the three copies of the records kept by the
  persisting decorator: `MemoryCopies` says when they agree over a sequence of
  operations, `MemoryEffects` what each of them accepts and does, `MemoryLimits`
  what becomes of lists made under a higher limit; `MemoryPersistence` has the
  classes.
* **Transcript** (`Transcript*.dfy`). Reading the event stream up to a snapshot,
  matching prompts with submissions, and paging backwards by cursor.
* **Research** and **Ulid**. The budget loop of a research run, and identifiers
  with the validator's overflow rule (ULID specification, section "Overflow
  Errors when Parsing Base32 Strings").

`Basics` and `Sorting` hold what several of them share.

Parameters stand for what is outside: the clock, staged contents and which
operation fails, the error classification, `normalize` (lower-casing), the
search and the pages fetched, fresh identifiers, and the order in which a hash
map lists its values.

## Where the obvious guarantee is false

* The gate lets more than `maxConcurrentRuns` attempts run when a newcomer enters
  between a release and the woken waiter's resumption: `BoundedIffNobodyOvertakes`
  says exactly when, `TwoRunAtOnce` leads there.
* Not every run ends terminal. `MovesOnIff` says exactly which open ones can still
  be worked on, `LosesExactly` which events take that away, `StopDecides` which
  waiting calls a stop turns away and which it leaves waiting for good;
  `PauseLeavesRunQueued` and `StopStrandsRetry` lead there.
* A deleted schedule can still dispatch, exactly if one of its retries is already
  in the gate: `DispatchAfterDelete`, `DeletedScheduleDispatches`.
* Auto-delete goes by slug and can delete a successor: `SuccessorIsDeleted`,
  `LateSuccessDeletesSuccessor`.
* A lifecycle call that fails may have changed something: `EveryCallExplained`,
  `EnabledDespiteFailure`, `BackupDeletionFails`; `FailedDisableOrphans`,
  `FailedEnableEnables` and `FailedUpdateKeepsRow` are cases of it.
* A roll-back of a failed update can lose the record from memory:
  `AgreeUnlessSplit`, `FailedRepairLosesRecord`. One that works resets the depth
  limit, and lists deeper than 5 then take no item changes but moves:
  `RepairFreezesDeepLists`, `DeepListFreezes`.
* Items on a circle of parents vanish from the rendered tree: `ConservesIffForest`,
  `CircleVanishes`.

Where code and comments differ the model follows the code. The comment in
`crates/gorombo-memory/src/index.rs:86` speaks of a Jaccard overlap of tags; tag
scores are the fraction of the query's tags that a record carries. Stopping the
manager resets its `started` flag as if it could start again, but nothing ever
clears `shuttingDown`. The comment above `persist`
(`src/engine/memory/structured-memory-runtime.ts:289-298`) says updates no longer
lose the prior value; they still do when the reconcile fails as well.

## Model

| member | source | states |
|---|---|---|
| ScheduleInvariant.BootedInv | src/engine/schedules/schedule-manager.ts:101-115 | A manager booted over any tables an earlier process left satisfies the invariant |
| ScheduleInvariant.NextKeeps | src/engine/schedules/schedule-manager.ts:118-486 | Every event (fire, waiter resumes, dispatch resolves or rejects, agent event, timeout, outcome, retry due, delete, save and sync, stop), in whatever order, keeps the whole invariant: gate bookkeeping, at most one carrier a run, rows that agree with their carrier, observations, retry timers, dispatch log |
| ScheduleTheorems.AtMostOneCarrier | src/engine/schedules/schedule-manager.ts:286-433 | A run has at most one carrier (waiting call, live attempt or armed retry timer), none once its row is terminal, and the row's attempt, instance and status are the carrier's |
| ScheduleTheorems.OpenWithoutCarrier | src/engine/schedules/schedule-manager.ts:118-157 | A row that is not terminal has no carrier if and only if an earlier process left it or its retry was discarded (cancelled, or turned away); a carrier need not be able to go on, see ScheduleStop.MovesOnIff |
| ScheduleAbandonment.AbandonsExactly | src/engine/schedules/schedule-manager.ts:118-157 | Whose retry each event discards, and no others: a pause those armed for its schedule, a stop all armed ones, and after a stop the retry that wakes or comes due; retries that a stop leaves waiting are another matter, see ScheduleStop.StopDecides |
| ScheduleEffects.ConcludedRow | src/engine/schedules/schedule-manager.ts:329-374 | Said without the steps: the row of a concluded attempt shows ok, or a timeout with its message, or an error with its message by kind (passing: failed, else skipped), or, exactly if the kind passes, is to be retried and has retries left, the next attempt queued; it goes only with its one-shot schedule |
| ScheduleEffects.RejectedRow | src/engine/schedules/schedule-manager.ts:313-323 | A refused dispatch fails the run with its reason and without a retry |
| ScheduleEffects.AdmittedRow | src/engine/schedules/schedule-manager.ts:325-326 | An admitted dispatch is noted with its id in a row that still exists |
| ScheduleEffects.BegunRow | src/engine/schedules/schedule-manager.ts:384-433 | Which calls start a row, which dispatch and as which attempt, and what a failing preflight writes |
| ScheduleEffects.PromisesSettle | src/engine/schedules/schedule-manager.ts:436-488 | By which event each promise settles and how, and what a pending one remembers of its turns; a new one is pending from its dispatch on |
| ScheduleEffects.AgentEventIs | src/engine/schedules/schedule-manager.ts:468-488 | What the subscriber makes of each kind of event |
| ScheduleEffects.NextTables | src/engine/schedules/schedule-manager.ts:118-226 | The table of schedules and the cron jobs after any event |
| ScheduleEffects.Fires | src/engine/schedules/schedule-manager.ts:192-203 | What a fire by hand or by a job sets going, with which record; nothing after a stop |
| ScheduleOutcomes.RunTells | src/engine/schedules/schedule-manager.ts:329-374 | Over any run of events the rows this process has finished show how the promise of their last attempt settled |
| ScheduleOutcomes.SucceededMeansEndedWell | src/engine/schedules/schedule-manager.ts:329-332 | A row that this process turned succeeded belongs to an attempt that was dispatched, and whose agent came to its end without a turn reporting an error since |
| ScheduleTypes.SavedAs | src/engine/schedules/schedule-store.ts:274-285 | What is left open in a definition takes its default |
| ScheduleTypes.InstanceIdReads | src/engine/schedules/schedule-types.ts:205-207 | Schedule, run and attempt can be read off an instance id |
| ScheduleStop.MovesOnIff | src/engine/schedules/schedule-manager.ts:229-246 | An open run can still be worked on (some run of events gives a call of it a slot) if and only if a call of it holds a slot, or the manager has not been stopped and it has a waiting call or an armed timer; between two turns of the event loop such events can come in an order that the loop allows |
| ScheduleStop.LosesExactly | src/engine/schedules/schedule-manager.ts:118-157 | Which open runs each event takes that chance from, and no others: a pause those with a timer armed for its schedule, a stop all that wait for a slot or a timer, and after a stop a conclusion whose outcome calls for a retry |
| ScheduleStop.StopDecides | src/engine/schedules/schedule-manager.ts:118-141 | What becomes of a call that waits in the gate at a stop: behind at least as many others in the queue as there are slot holders it is never woken, stays in the gate for good and its row queued; any other has been turned away, and its run abandoned if it was a retry, as soon as nobody holds a slot or is woken |
| ScheduleStop.RunWinds | src/engine/schedules/schedule-manager.ts:229-246 | Over all events after a stop nobody new gets a slot, nobody new waits, the queue loses exactly one call from its front for every slot given back, and a retry that no longer waits is abandoned |
| ScheduleExamples.StopStrandsRetry | src/engine/schedules/schedule-manager.ts:118-141 | It happens: a freshly booted manager with one slot, a call that holds it, another that waits, a retry behind it, a stop: the retry is never woken and its row stays queued whatever follows |
| ScheduleWaiting.GetsSlot | src/engine/schedules/schedule-manager.ts:229-246 | Until a stop every waiting call can get its slot: a run of events is given in which every slot holder before it finishes and every caller before it goes in |
| ScheduleAbandonment.EveryOpenRowOfScheduleMoves | src/engine/schedules/schedule-manager.ts:286-433 | Over any run of events in which nobody pauses this schedule and nobody stops the manager, every open row of its runs has its carrier, whatever happens to other schedules |
| ScheduleTheorems.NextFrame | src/engine/schedules/schedule-manager.ts:286-433 | One event moves only the run it is about: it changes no row of another run and gives no other run a carrier, every settled promise keeps its value, and only a pause or stop (or an event after a stop) abandons a run |
| ScheduleTheorems.NextKept | src/engine/schedules/schedule-manager.ts:118-433 | Nor does another run lose anything but this: a row goes only together with its schedule, and a carrier stays, at most let into its slot, unless its run is abandoned or has no row |
| ScheduleTheorems.EveryOpenRowMoves | src/engine/schedules/schedule-manager.ts:286-433 | Over any run of events without a pause or stop, every open row of this process always has its carrier |
| ScheduleTheorems.OverIsForever | src/engine/schedules/schedule-manager.ts:118-157 | A run without a carrier never gets one again and its row never changes, even if the schedule is enabled again |
| ScheduleTheorems.TerminalIsFinal | src/engine/schedules/schedule-manager.ts:286-366 | No event ever overwrites, re-admits or retries a terminal row |
| ScheduleTheorems.SettlesOnce | src/engine/schedules/schedule-manager.ts:436-465 | A settled observation keeps its outcome for good: each promise settles at most once |
| ScheduleConsequences.DispatchesWithinBudget | src/engine/schedules/schedule-manager.ts:338-366 | A run dispatches at most max(0, maxAttempts) + 1 times |
| ScheduleTypes.DecimalReadsBack | src/engine/schedules/schedule-manager.ts:353 | The decimal rendering of an attempt number determines the number |
| ScheduleTypes.InstanceIdInjective | src/engine/schedules/schedule-types.ts:205-207 | Rendered instance ids of distinct runs or attempts differ (schedule and run ids being 26 characters long) |
| ScheduleConsequences.InstanceIdsDistinct | src/engine/schedules/schedule-manager.ts:353 | No two dispatches ever use the same instance id |
| ScheduleConsequences.EventsStayWithTheirAttempt | src/engine/schedules/schedule-manager.ts:468-488 | An event for one attempt never touches the observation or the outcome of another, and the text that names the one never names the other |
| ScheduleConsequences.GateConserves | src/engine/schedules/schedule-manager.ts:229-246 | In every reachable state inFlight is the number of slot holders, waiters are served in the order of their arrival, and before shutdown nobody waits while a slot is idle |
| ScheduleConsequences.NobodyStranded | src/engine/schedules/schedule-manager.ts:229-246 | With at least one slot, a waiter always has somebody left who will wake it |
| ScheduleConsequences.OnlyOvertakingExceeds | src/engine/schedules/schedule-manager.ts:229-246 | An event pushes slots in use or promised over the maximum if and only if it lets a newcomer take a slot already promised to a woken waiter |
| ScheduleConsequences.BoundedIffNobodyOvertakes | src/engine/schedules/schedule-manager.ts:229-246 | Throughout a run of events the bound holds if and only if nobody overtakes |
| ScheduleConsequences.PromptResumptionBounds | src/engine/schedules/schedule-manager.ts:229-246 | If callers enter only when every woken waiter has run again, inFlight never exceeds maxConcurrentRuns |
| ScheduleConsequences.OvertakingExceeds | src/engine/schedules/schedule-manager.ts:229-246 | Whenever somebody does overtake, inFlight really exceeds the maximum as soon as the woken waiters run |
| ScheduleGate.OvertakingExample | src/engine/schedules/schedule-manager.ts:229-246 | A concrete run with one slot and two attempts at once |
| ScheduleGate.AcquireKeeps | src/engine/schedules/schedule-manager.ts:229-238 | Entering the gate keeps conservation, order and the no-idle-slot property |
| ScheduleGate.ReleaseKeeps | src/engine/schedules/schedule-manager.ts:240-246 | Giving a slot back keeps them |
| ScheduleGate.ResumeKeeps | src/engine/schedules/schedule-manager.ts:231-237 | A woken waiter running again keeps them, and conservation and order also during shutdown |
| ScheduleExamples.TwoRunAtOnce | src/engine/schedules/schedule-manager.ts:229-246 | It happens: from a freshly booted manager with one slot, seven events, in an order that the event loop allows, lead to two attempts at once |
| ScheduleDeletion.DispatchAfterDelete | src/engine/schedules/schedule-manager.ts:414-433 | For a schedule that no longer exists some run of events dispatches something if and only if one of its retries has passed the existence check and not dispatched yet: it waits in the gate, or holds its slot. Running attempts, armed timers, cron jobs, first attempts and later saves cannot bring it about |
| ScheduleDeletion.SilentForGood | src/engine/schedules/schedule-manager.ts:210-226 | Without such a retry no event of any run dispatches for the schedule again, and none makes such a retry appear |
| ScheduleDeletion.RetryCanDispatch | src/engine/schedules/schedule-manager.ts:414-433 | With such a retry a run of events that dispatches it, in an order that the event loop allows, is given: every slot holder before it finishes, every caller before it goes in |
| ScheduleDeletion.DeleteEndsDispatchesIff | src/engine/schedules/schedule-manager.ts:210-226 | So a delete ends all dispatches of its schedule if and only if, just before it, none of the schedule's retries waits in the gate or holds a slot |
| ScheduleDeletion.DeletedRetryDispatches | src/engine/schedules/schedule-manager.ts:420-429 | For every such retry, waiting in the gate or holding its slot, deleting its schedule leads to a state from which it still dispatches |
| ScheduleExamples.DeletedScheduleDispatches | src/engine/schedules/schedule-manager.ts:414-433 | It happens: a freshly booted manager, a failing attempt, another run in the only slot, the retry waiting in the gate, a delete, and then the dispatch |
| ScheduleConsequences.AutoDeleteRemoves | src/engine/schedules/schedule-manager.ts:504-514 | Auto-delete removes exactly the schedules with the record's slug, and keeps every run of the others |
| ScheduleConsequences.SuccessorIsDeleted | src/engine/schedules/schedule-manager.ts:504-514 | A one-shot schedule deleted and saved anew while its observation is pending, or settled but not yet seen: the old attempt's success deletes the new schedule |
| ScheduleExamples.LateSuccessDeletesSuccessor | src/engine/schedules/schedule-manager.ts:504-514 | It happens: a freshly booted manager, an attempt under observation, a delete, a save under the slug, the late success, and the new schedule is gone |
| ScheduleConsequences.PausedRetryIsStuck | src/engine/schedules/schedule-manager.ts:148-157 | Pausing a schedule with an armed retry leaves that run queued and uncarried for good, or until its row is deleted |
| ScheduleExamples.PauseLeavesRunQueued | src/engine/schedules/schedule-manager.ts:148-157 | It happens: a freshly booted manager, a failing attempt whose retry is armed, a pause, and the run stays queued whatever follows |
| ScheduleExamples.SomePolicyRetries | src/engine/schedules/schedule-manager.ts:338-349 | Settings under which the failing cases with a retry occur do exist |
| ScheduleManagement.ScheduleStore.GetBySlug | src/engine/schedules/schedule-store.ts:353-358 | Finds the one schedule with the slug, or none |
| ScheduleManagement.ScheduleStore.Delete | src/engine/schedules/schedule-store.ts:438-441 | Removes the schedules with the slug and, by cascade, exactly their runs |
| ScheduleManagement.ScheduleStore.Upsert | src/engine/schedules/schedule-store.ts:274-344 | Rewrites the row that has the slug under its old id, or inserts one under the fresh id; an invalid definition, or a taken slug when no merge is wanted, changes nothing |
| ScheduleManagement.ScheduleStore.SetEnabled | src/engine/schedules/schedule-store.ts:388-394 | Sets the flag of the one schedule with the slug, or finds none |
| ScheduleManagement.ScheduleStore.RecordRunStart | src/engine/schedules/schedule-store.ts:453-469 | Inserts a queued row for attempt 0; fails for a missing schedule or a used run id |
| ScheduleManagement.ScheduleStore.RecordRunAdmitted | src/engine/schedules/schedule-store.ts:472-481 | Moves an existing row to admitted with its dispatch id; a missing row stays missing |
| ScheduleManagement.ScheduleStore.RecordRunTerminal | src/engine/schedules/schedule-store.ts:488-517 | Writes status and error of an existing row, whatever its status was |
| ScheduleManagement.ScheduleStore.RecordRunRetry | src/engine/schedules/schedule-store.ts:525-534 | Requeues the row under the new instance with attempt + 1 |
| ScheduleManagement.ScheduleManager.constructor | src/engine/schedules/schedule-manager.ts:92-115 | A new manager over given tables is in a booted state |
| ScheduleManagement.ScheduleManager.AcquireConcurrency | src/engine/schedules/schedule-manager.ts:229-238 | Counts the caller in, or queues it last, as the gate's specification says |
| ScheduleManagement.ScheduleManager.ReleaseConcurrency | src/engine/schedules/schedule-manager.ts:240-246 | Frees the slot and wakes the head of the queue |
| ScheduleManagement.ScheduleManager.ResumeAcquire | src/engine/schedules/schedule-manager.ts:231-237 | The oldest woken caller counts itself in, unless shutdown turns it away |
| ScheduleManagement.ScheduleManager.WaiterRuns | src/engine/schedules/schedule-manager.ts:229-238 | Is exactly the resume step of the state machine |
| ScheduleManagement.ScheduleManager.CallEnds | src/engine/schedules/schedule-manager.ts:408-410 | Is exactly the release step |
| ScheduleManagement.ScheduleManager.Resolve | src/engine/schedules/schedule-manager.ts:455-463 | Settles a pending observation once; later calls change nothing |
| ScheduleManagement.ScheduleManager.ObserveTimedOut | src/engine/schedules/schedule-manager.ts:442-448 | The timer's unconditional resolve is the same as settling the pending observation |
| ScheduleManagement.ScheduleManager.HandleEvent | src/engine/schedules/schedule-manager.ts:468-488 | Routes an event by instance id: a turn error is remembered, the end settles with it, anything else changes nothing |
| ScheduleManagement.ScheduleManager.Route | src/engine/schedules/schedule-manager.ts:468-475 | The instance id of an event, as text, names at most one pending observation, and this is it |
| ScheduleManagement.ScheduleManager.HandleAgentEvent | src/engine/schedules/schedule-manager.ts:468-488 | An event given by its text is the event of the one observation it names, and changes nothing if it names none |
| ScheduleManagement.ScheduleManager.ClearTimers | src/engine/schedules/schedule-manager.ts:269-277 | Drops exactly the given timers |
| ScheduleManagement.ScheduleManager.CancelRetriesFor | src/engine/schedules/schedule-manager.ts:269-277 | Drops exactly the schedule's retry timers and their tracking set |
| ScheduleManagement.ScheduleManager.BeginRunAttempt | src/engine/schedules/schedule-manager.ts:293-312 | Registers the observation and its timer before the dispatch |
| ScheduleManagement.ScheduleManager.MaybeAutoDelete | src/engine/schedules/schedule-manager.ts:504-514 | Is exactly the auto-delete step |
| ScheduleManagement.ScheduleManager.FinishAttempt | src/engine/schedules/schedule-manager.ts:329-336 | Terminal row, then auto-delete, slot still held |
| ScheduleManagement.ScheduleManager.Continue | src/engine/schedules/schedule-manager.ts:384-433 | Is exactly the begin step: row start, preflight, first dispatch, or a retry's dispatch at once |
| ScheduleManagement.ScheduleManager.DispatchResolved | src/engine/schedules/schedule-manager.ts:325-328 | Is exactly the admit step |
| ScheduleManagement.ScheduleManager.DispatchRejected | src/engine/schedules/schedule-manager.ts:313-323 | Is exactly the reject step: observation cancelled, row failed, no retry |
| ScheduleManagement.ScheduleManager.ScheduleRetry | src/engine/schedules/schedule-manager.ts:349-364 | Advances the row, arms one timer for the next attempt and tracks it under the schedule |
| ScheduleManagement.ScheduleManager.OutcomeArrived | src/engine/schedules/schedule-manager.ts:328-374 | Is exactly the conclude step: ok, timeout, retry if transient, retryable and within budget, else failed or skipped |
| ScheduleManagement.ScheduleManager.FireRecord | src/engine/schedules/schedule-manager.ts:377-382 | Is exactly the fire step; nothing happens after shutdown |
| ScheduleManagement.ScheduleManager.RunNow | src/engine/schedules/schedule-manager.ts:192-203 | Fires the schedule with the slug if there is one |
| ScheduleManagement.ScheduleManager.RetryFire | src/engine/schedules/schedule-manager.ts:414-426 | Is exactly the retry step: timer untracked, dropped on shutdown or for a deleted schedule, else into the gate |
| ScheduleManagement.ScheduleManager.SyncCron | src/engine/schedules/schedule-manager.ts:146-189 | Is exactly the sync step for a paused, invalid or enabled record |
| ScheduleManagement.ScheduleManager.SaveSchedule | src/engine/tools/schedule-tools.ts:64-75 | Creating or rewriting a schedule is exactly the save step: upsert, then sync |
| ScheduleManagement.ScheduleManager.SetScheduleEnabled | src/engine/tools/schedule-tools.ts:95-100 | Pausing or resuming is exactly the save step for the schedule with its flag changed |
| ScheduleManagement.ScheduleManager.DeleteSchedule | src/engine/schedules/schedule-manager.ts:210-226 | Is exactly the delete step for the schedule with the slug |
| ScheduleManagement.ScheduleManager.ClearAllTimers | src/engine/schedules/schedule-manager.ts:125-130 | Drops every armed timer of every schedule |
| ScheduleManagement.ScheduleManager.DrainPending | src/engine/schedules/schedule-manager.ts:133-139 | Settles everything pending as a timeout |
| ScheduleManagement.ScheduleManager.CloseDown | src/engine/schedules/schedule-manager.ts:119-130 | Cron jobs and retry timers are gone, their runs abandoned |
| ScheduleManagement.ScheduleManager.Shutdown | src/engine/schedules/schedule-manager.ts:118-141 | Is exactly the stop step |
| CapabilityInvariant.EmptyInv | src/engine/capabilities/capability-store.ts:42-49 | An empty registry and tree satisfy the invariant |
| CapabilityInvariant.StepKeeps | src/engine/capabilities/capability-lifecycle-service.ts:222-417 | Every add, update, enable, disable and remove keeps, whatever fails in it: ids unique across kinds, no backup directory left, every enabled package promoted, every live content validated for its capability, agent-installed code enabled only by an enable |
| CapabilityTheorems.EveryCallExplained | src/engine/capabilities/capability-lifecycle-service.ts:222-417 | Exactly what every call does, whatever fails in it: if its registry write does not go through, registry and live directories are as before; else it makes exactly its intended change and reports it unless its staging root stays; but if its backup cannot be deleted it reports failure with the old directory back under the new registry, or under the compensated row |
| CapabilityEffects.AddStores | src/engine/capabilities/capability-lifecycle-service.ts:222-263 | Said field by field: a successful add stores the record as asked with two new stamps, enabled exactly if asked and a skill or not from an agent, and makes the staged content live exactly if so enabled |
| CapabilityEffects.UpdateStores | src/engine/capabilities/capability-lifecycle-service.ts:265-313 | A successful update, field by field: patched or as before, settings merged, code disabled, live directory replaced or gone |
| CapabilityEffects.EnableStores | src/engine/capabilities/capability-lifecycle-service.ts:315-346 | A successful enable leaves an enabled row alone, and else sets flag, stamp and live directory |
| CapabilityEffects.DisableStores | src/engine/capabilities/capability-lifecycle-service.ts:348-376 | A successful disable clears the flag, stamps the row and drops the live directory |
| CapabilityEffects.RemoveStores | src/engine/capabilities/capability-lifecycle-service.ts:378-417 | A successful removal drops row and live directory, and nothing else |
| CapabilityEffects.AddSucceedsIff | src/engine/capabilities/capability-lifecycle-service.ts:222-257 | Without faults, exactly the adds that succeed, check by check |
| CapabilityEffects.UpdateSucceedsIff | src/engine/capabilities/capability-lifecycle-service.ts:265-296 | Without faults, exactly the updates that succeed |
| CapabilityEffects.OthersSucceedIff | src/engine/capabilities/capability-lifecycle-service.ts:315-389 | Without faults, exactly the enables, disables and removals that succeed |
| CapabilityTheorems.ReplacedMeaning | src/engine/capabilities/capability-lifecycle-service.ts:571-601 | Replacing a live directory is done, not done, or (exactly if it is reached and the deletion of the backup fails) done in the registry only, with the old directory back |
| CapabilityTheorems.RetiredMeaning | src/engine/capabilities/capability-lifecycle-service.ts:603-635 | Taking a live directory away is done, not done, or (in the same case) done in the registry only or compensated, with the directory back |
| CapabilityTheorems.SucceedsIffAccepted | src/engine/capabilities/capability-lifecycle-service.ts:222-396 | If nothing fails underneath, a call succeeds if and only if its checks pass, except that a leftover directory blocks adding the same capability enabled |
| CapabilityTheorems.OrphanArises | src/engine/capabilities/capability-lifecycle-service.ts:348-416 | A live directory without an enabled record arises from a call if and only if the call disables or removes a capability with a live directory and, of its file and registry operations, just the deletion of the backup fails |
| CapabilityRuns.AfterKeeps | src/engine/capabilities/capability-lifecycle-service.ts:222-417 | The invariant holds after any sequence of calls |
| CapabilityRuns.EnabledIsPromoted | src/engine/capabilities/capability-loader.ts:49-76 | After any calls with any failures, every enabled skill, tool and worker has its directory |
| CapabilityRuns.OrphansNeedAFailedDeletion | src/engine/capabilities/capability-lifecycle-service.ts:348-416 | Over a sequence in which no backup deletion fails no such directory appears |
| CapabilityRuns.PromotedIffEnabled | src/engine/capabilities/capability-lifecycle-service.ts:222-417 | In such sequences live directories and enabled packages coincide exactly |
| CapabilityRuns.LiveWasValidated | src/engine/capabilities/capability-lifecycle-service.ts:521-569 | Whatever is live passed validation in an earlier add, update or enable of that very capability |
| CapabilityRuns.AgentCodeIsEnabledExplicitly | src/engine/capabilities/capability-lifecycle-service.ts:227-346 | An agent-installed tool, worker or MCP record is enabled only if the last registry write kept for it came from an enable, which also was the last success unless a deletion failed |
| CapabilityRuns.EnabledDespiteFailure | src/engine/capabilities/capability-lifecycle-service.ts:315-346 | An enable reports failure and still enables if and only if only the deletion of its backup or staging root fails |
| CapabilityRuns.CompensationRestores | src/engine/capabilities/capability-store.ts:133-161 | A compensated update restores every field but the time stamp and new settings, and all of them if and only if the patch names no new setting |
| CapabilityRuns.BackupDeletionFails | src/engine/capabilities/capability-lifecycle-service.ts:603-635 | If just the deletion of the backup fails, an update that disables restores directory and row (compensated), and one of a skill keeps the new row over the old directory |
| CapabilityRuns.FailedDisableOrphans | src/engine/capabilities/capability-lifecycle-service.ts:348-376 | The case of one tool: added enabled, disabled while its backup cannot be deleted, and its directory stays behind |
| CapabilityRuns.FailedEnableEnables | src/engine/capabilities/capability-lifecycle-service.ts:315-346 | The case of one tool: an enable that cannot delete its staging root reports failure and has enabled it |
| CapabilityRuns.FailedUpdateKeepsRow | src/engine/capabilities/capability-lifecycle-service.ts:603-635 | The case of one skill: an update that cannot delete its backup keeps the new row over the old directory |
| CapabilityRuns.StagingRootStaysIff | src/engine/capabilities/capability-lifecycle-service.ts:292-346 | A staging root is left behind if and only if its deletion fails, or an update, or an enable of a disabled record, staged content that does not pass validation |
| CapabilityRuns.CommitsIffSucceeds | src/engine/capabilities/capability-lifecycle-service.ts:222-417 | Unless a deletion fails, a call's registry write stands if and only if the call reports success |
| CapabilityService.CapabilityStore.FindById | src/engine/capabilities/capability-lifecycle-service.ts:466-476 | Finds whether any kind already uses the id |
| CapabilityService.CapabilityStore.InsertStrict | src/engine/capabilities/capability-store.ts:110-131 | Inserts one row or changes nothing |
| CapabilityService.CapabilityStore.Update | src/engine/capabilities/capability-store.ts:133-161 | Merges settings into the existing row and restamps it; no row, no change |
| CapabilityService.CapabilityStore.SetEnabled | src/engine/capabilities/capability-store.ts:168-172 | Flips one flag and restamps the row |
| CapabilityService.CapabilityStore.Remove | src/engine/capabilities/capability-store.ts:163-166 | Deletes one row and says whether there was one |
| CapabilityService.CapabilityLifecycleService.constructor | src/engine/capabilities/capability-lifecycle-service.ts:153-163 | A new service over an empty registry is valid |
| CapabilityService.CapabilityLifecycleService.Stage | src/engine/capabilities/capability-lifecycle-service.ts:486-519 | Stages under a root of its own, or leaves nothing |
| CapabilityService.CapabilityLifecycleService.DropStageRoot | src/engine/capabilities/capability-lifecycle-service.ts:258-262 | Deletes the staging root or leaves all of it |
| CapabilityService.CapabilityLifecycleService.BackUp | src/engine/capabilities/capability-lifecycle-service.ts:581-584 | Moves the live directory aside if there is one |
| CapabilityService.CapabilityLifecycleService.Restore | src/engine/capabilities/capability-lifecycle-service.ts:595-598 | Moves the backup back if it still exists |
| CapabilityService.CapabilityLifecycleService.ReplaceMaterialized | src/engine/capabilities/capability-lifecycle-service.ts:571-601 | Backup, promotion, registry write and backup deletion with their roll-back have exactly the specified net effect |
| CapabilityService.CapabilityLifecycleService.Retire | src/engine/capabilities/capability-lifecycle-service.ts:603-635 | The same for disabling, removing and an update that disables |
| CapabilityService.CapabilityLifecycleService.PromoteAndInsert | src/engine/capabilities/capability-lifecycle-service.ts:238-257 | The same for a new capability; promoting onto an existing directory fails |
| CapabilityService.CapabilityLifecycleService.SwapForUpdate | src/engine/capabilities/capability-lifecycle-service.ts:296-306 | Chooses disable, replace or write only, as the new record demands |
| CapabilityService.CapabilityLifecycleService.Finish | src/engine/capabilities/capability-lifecycle-service.ts:308-312 | The finally block: reports failure if the staging root stays |
| CapabilityService.CapabilityLifecycleService.AddCapability | src/engine/capabilities/capability-lifecycle-service.ts:222-263 | Is exactly the add step, and keeps the invariant |
| CapabilityService.CapabilityLifecycleService.UpdateCapability | src/engine/capabilities/capability-lifecycle-service.ts:265-313 | Is exactly the update step, and keeps the invariant |
| CapabilityService.CapabilityLifecycleService.EnableCapability | src/engine/capabilities/capability-lifecycle-service.ts:315-346 | Is exactly the enable step, and keeps the invariant |
| CapabilityService.CapabilityLifecycleService.DisableCapability | src/engine/capabilities/capability-lifecycle-service.ts:348-376 | Is exactly the disable step, and keeps the invariant |
| CapabilityService.CapabilityLifecycleService.RemoveCapability | src/engine/capabilities/capability-lifecycle-service.ts:378-417 | Is exactly the remove step, and keeps the invariant |
| CapabilityService.CapabilityLifecycleService.LoadPromoted | src/engine/capabilities/capability-loader.ts:49-76 | Loads exactly the enabled records of a kind and reports no missing package |
| ParentChains.RootedChainIsDistinct | crates/gorombo-memory/src/checklist.rs:88-104 | A parent chain that reaches a root never repeats an id |
| ParentChains.AcyclicIsRooted | crates/gorombo-memory/src/checklist.rs:88-104 | Without a circle every chain ends within as many links as there are |
| Checklists.ItemDepth | crates/gorombo-memory/src/checklist.rs:88-104 | Terminates on every list; positive results are the exact depth, and 0 means the chain breaks off or never ends |
| Checklists.CreatesCycle | crates/gorombo-memory/src/checklist.rs:109-134 | Terminates on every list; true if and only if the item is on the chain of its new parent, so the early false is right |
| Checklists.ValidateItems | crates/gorombo-memory/src/lib.rs:348-380 | Accepts exactly the lists with distinct ids, known parents, no circle and every depth within the limit |
| ChecklistParity.ItemDepth | src/engine/memory/rust-memory-engine.ts:762-777 | The TypeScript walk: exact distance to the end of the chain, or 0 if there is no end near enough |
| ChecklistParity.CreatesCycle | src/engine/memory/rust-memory-engine.ts:742-760 | The TypeScript walk decides the same question as the Rust one |
| ChecklistParity.ValidateItems | src/engine/memory/rust-memory-engine.ts:710-729 | The TypeScript engine accepts exactly the lists the Rust engine accepts |
| ChecklistTree.RenderChecklistTree | src/core/types/memory.ts:91-113 | Map, children lists and sorting produce exactly the specified tree, for any list |
| ChecklistTree.LinkChildren | src/core/types/memory.ts:96-104 | Every node is pushed to its parent's children, or to the roots, in list order |
| ChecklistTree.SortSiblings | src/core/types/memory.ts:105-111 | Sorts siblings all the way down, and terminates |
| ChecklistTreeTheorems.ShowsExactlyTheRooted | src/core/types/memory.ts:91-113 | For any list the tree shows exactly the items whose chain of parents ends, each once; items on or under a circle vanish |
| ChecklistTreeTheorems.ConservesIffForest | src/core/types/memory.ts:91-113 | Flattening the tree gives a permutation of the list if and only if ids are distinct and parents form no circle |
| ChecklistTreeTheorems.ValidForestIsConserved | src/core/types/memory.ts:91-113 | Every list the checklist checks accept is rendered in full |
| ChecklistTreeTheorems.RenderedIsPlaced | src/core/types/memory.ts:91-113 | Every child sits under its own parent, and siblings follow their ordinals, at every level |
| ChecklistTreeTheorems.CircleVanishes | src/core/types/memory.ts:91-113 | The case of two items, each the other's parent: nothing is rendered |
| ChecklistTreeTheorems.SortIsStable | src/core/types/memory.ts:106 | Siblings with equal ordinals keep the order of the list |
| MemoryIndex.InMemoryIndex.constructor | crates/gorombo-memory/src/index.rs:15-20 | The empty index agrees with the empty store |
| MemoryIndex.InMemoryIndex.Insert | crates/gorombo-memory/src/index.rs:22-40 | Stores the record and keeps both indexes exact: each key lists just the ids carrying it, and no set is empty |
| MemoryIndex.InMemoryIndex.Remove | crates/gorombo-memory/src/index.rs:42-61 | Removes and returns the record; both indexes stay exact, duplicate tags included |
| MemoryIndex.InMemoryIndex.Rebuild | crates/gorombo-memory/src/index.rs:76-83 | Loads the snapshot, later records replacing earlier ones, with exact indexes |
| MemoryQuery.Candidates | crates/gorombo-memory/src/index.rs:114-121 | The inverted index yields exactly the ids of records with at least one of the tags |
| MemoryQuery.QueryTags | crates/gorombo-memory/src/index.rs:108-137 | Returns the best so many of exactly what a scan of every record would score above 0, best first |
| MemoryRanking.TagScore | crates/gorombo-memory/src/query.rs:112-120 | Between 0 and 1, above 0 exactly if some query tag is on the record |
| MemoryRanking.TagScoreCounts | crates/gorombo-memory/src/query.rs:112-120 | The score is the number of the query's tags on the record over the number of all of them |
| MemoryRanking.KeywordScoreCounts | crates/gorombo-memory/src/query.rs:100-110 | Seven tenths of the number of words in the title over the number of all of them, or 1 for the word that is the title |
| MemoryRanking.StringLeqIff | crates/gorombo-memory/src/query.rs:75-80 | Strings compare by their first difference, a prefix coming first |
| MemoryRanking.KeywordScore | crates/gorombo-memory/src/query.rs:100-110 | Between 0 and 1, above 0 exactly if some word occurs in the title, above 0.7 exactly for the single word that is the title |
| MemoryRanking.RanksAreTotal | crates/gorombo-memory/src/query.rs:75-80 | Score down, last change down, id up is a total transitive order |
| MemoryQuery.RunQuery | crates/gorombo-memory/src/query.rs:34-98 | For any listing order of the store: the first min(limit, 100) of all records passing the filters (and scoring above 0 when words or tags are given), ranked, and the number that passed |
| MemoryQuery.AnswerSays | crates/gorombo-memory/src/query.rs:34-98 | What an answer says, spelled out: at most 20 or as many as asked, never over 100; only records that are wanted, visible and hit; by better score, later change, smaller id; and what is left out comes after all of it |
| MemoryQuery.BestMatchesSay | crates/gorombo-memory/src/index.rs:108-137 | Tag matches by falling score, none left out that scores higher |
| MemoryQuery.AnswerIgnoresOrder | crates/gorombo-memory/src/query.rs:34-98 | That answer is unique: the listing order of the hash map never shows |
| Sorting.SortBySorts | crates/gorombo-memory/src/query.rs:75-91 | The sort the planner relies on sorts by any total comparison |
| Sorting.SortedOnce | crates/gorombo-memory/src/query.rs:75-91 | If only equals tie, there is only one way to sort |
| MemoryEngine.EngineState.ValidateChecklist | crates/gorombo-memory/src/lib.rs:321-381 | Accepts exactly if scope, slug and title are non-empty, no other checklist that is visible from the same place has the slug, and the items are a bounded forest |
| MemoryEngine.EngineState.Create | crates/gorombo-memory/src/lib.rs:125-142 | Stores a well-formed record under a new id if the checks pass, else changes nothing |
| MemoryEngine.EngineState.Update | crates/gorombo-memory/src/lib.rs:144-165 | Replaces a record of the same kind if the checks pass, else changes nothing |
| MemoryEngine.EngineState.AddChecklistItem | crates/gorombo-memory/src/lib.rs:168-200 | Replaces or appends the item if the prospective checklist passes the checks, else changes nothing |
| MemoryEngine.EngineState.Delete | crates/gorombo-memory/src/lib.rs:291-301 | Removes the record and says whether there was one |
| MemoryEngine.EngineState.Reconcile | crates/gorombo-memory/src/lib.rs:303-315 | Loads the snapshot unchecked and sets the depth limit, at least 1 |
| MemoryEngine.EngineStaysSound | crates/gorombo-memory/src/lib.rs:125-200 | In every state reached with sound snapshots and no lowered limit all checklists are bounded forests in a non-empty scope and no two that overlap share a slug |
| MemoryEngine.LoweringKeepsIff | crates/gorombo-memory/src/lib.rs:307-309 | With a lowered limit this stays true if and only if no loaded checklist is too deep |
| MemoryEngine.ForestDeeper | crates/gorombo-memory/src/lib.rs:371-377 | Raising the limit never invalidates a list |
| MemoryEffects.CreatedIff | crates/gorombo-memory/src/lib.rs:125-142 | Exactly which records are accepted as new, check by check |
| MemoryEffects.UpdatedIff | crates/gorombo-memory/src/lib.rs:144-165 | Exactly which records are accepted over an old one |
| MemoryEffects.SeenIff | crates/gorombo-memory/src/scope.rs:58-104 | Which scopes see which |
| MemoryEffects.CreateDoes | src/engine/memory/structured-memory-runtime.ts:334-338 | A create that succeeds adds just the record to memory and table; a refused one changes nothing; after a failed write the table is as before and memory is repaired, drops the record, or keeps it |
| MemoryEffects.EditDoes | src/engine/memory/structured-memory-runtime.ts:340-344 | The same for an update, with exactly the patched record |
| MemoryEffects.PutDoes | src/engine/memory/structured-memory-runtime.ts:346-356 | The same for an item: over the first with its id or at the end, with the audit fields of the request |
| MemoryEffects.DeleteDoes | src/engine/memory/structured-memory-runtime.ts:392-420 | A delete that succeeds removes just the record from memory and table; a refused one changes nothing; and what each failure leaves |
| MemoryEffects.LoadDoes | src/engine/memory/structured-memory-runtime.ts:422-424 | Memory becomes just the records given, later ones over earlier ones, with the limit named or 5 |
| MemoryCopies.ScopeGuardsAgree | src/engine/memory/rust-memory-engine.ts:57-85 | The shim's scope guard and the engine's visibility rule agree on non-empty scopes |
| MemoryCopies.AgreeUnlessSplit | src/engine/memory/structured-memory-runtime.ts:299-420 | From copies that agree, any operation with any failures leaves them agreeing if and only if it is not one of these: a write whose repair fails too, unless the fallback leaves just what the table has; a delete whose row goes while memory cannot follow and cannot be repaired; a load of something else |
| MemoryCopies.PutSplits | src/engine/memory/structured-memory-runtime.ts:346-356 | The same condition spelled out for an item: write and reconcile both fail, and the fallback works or the item changed something |
| MemoryCopies.AgreeThroughoutIff | src/engine/memory/structured-memory-runtime.ts:274-428 | Over any sequence of operations with any failures, the copies agree after every one if and only if none of them splits them |
| MemoryCopies.RepairsSuffice | src/engine/memory/structured-memory-runtime.ts:299-420 | So they always agree if no write fails together with its repair, whatever else fails |
| MemoryCopies.TogetherAgain | src/engine/memory/structured-memory-runtime.ts:299-428 | Copies that came apart, however far, agree again after a rehydration or the first repaired failure, and stay together while repairs work |
| MemoryCopies.FailedRepairLosesRecord | src/engine/memory/structured-memory-runtime.ts:299-320 | The case of one todo: an update whose write and repair fail leaves it in the table and not in memory |
| MemoryLimits.TooDeepTakesOnlyMoves | crates/gorombo-memory/src/lib.rs:168-200 | A list that is too deep for the limit takes no new item and no change that leaves an item under its parent |
| MemoryLimits.RepairFreezesDeepLists | src/engine/memory/structured-memory-runtime.ts:299-320 | A failed write, though repaired from the table, takes the limit back to 5, and from then on every list deeper than 5 refuses all item requests but moves |
| MemoryLimits.DeepListFreezes | src/engine/memory/rust-memory-engine.ts:402-411 | The case of a list of six levels or more: created and changed under its limit, then one failed write, and the same change is refused |
| MemoryPersistence.StructuredMemoryDatabase.WriteRecord | src/engine/memory/structured-memory-database.ts:92-120 | Writes one row or changes nothing |
| MemoryPersistence.StructuredMemoryDatabase.DeleteRecord | src/engine/memory/structured-memory-database.ts:122-124 | Deletes one row or changes nothing |
| MemoryPersistence.StructuredMemoryDatabase.LoadAllRecords | src/engine/memory/structured-memory-database.ts:136-141 | Lists rows from which exactly the table is rebuilt |
| MemoryPersistence.RustMemoryEngine.constructor | src/engine/memory/rust-memory-engine.ts:220-222 | Cache and index start equal |
| MemoryPersistence.RustMemoryEngine.Create | src/engine/memory/rust-memory-engine.ts:242-246 | Cache and index stay equal; on refusal both are unchanged |
| MemoryPersistence.RustMemoryEngine.Update | src/engine/memory/rust-memory-engine.ts:248-271 | The same, the new record being built from the cached one within its scope |
| MemoryPersistence.RustMemoryEngine.PutItem | src/engine/memory/rust-memory-engine.ts:273-323 | The same for adding or changing an item |
| MemoryPersistence.RustMemoryEngine.Delete | src/engine/memory/rust-memory-engine.ts:397-400 | The same for deletion |
| MemoryPersistence.RustMemoryEngine.Reconcile | src/engine/memory/rust-memory-engine.ts:402-411 | Both become the snapshot even if they differed before, and the depth limit goes back to 5 unless one is named |
| MemoryPersistence.PersistingMemoryEngine.Persist | src/engine/memory/structured-memory-runtime.ts:299-320 | A failing write loads memory back from the table (limit 5), or, if that fails too, drops the record from memory |
| MemoryPersistence.PersistingMemoryEngine.Create | src/engine/memory/structured-memory-runtime.ts:334-338 | Is exactly the create of the specification: index, cache and table all gain the record or all stay; copies that agreed still do unless write, reconcile and fallback delete all fail |
| MemoryPersistence.PersistingMemoryEngine.Update | src/engine/memory/structured-memory-runtime.ts:340-344 | Is exactly the update of the specification: all three gain the patched record or all stay unless the write fails; copies that agreed still do whenever write or reconcile works, and otherwise exactly if nothing had been changed in memory, or the fallback fails too and the update was without effect |
| MemoryPersistence.PersistingMemoryEngine.PutItem | src/engine/memory/structured-memory-runtime.ts:346-356 | The same for adding or changing an item |
| MemoryPersistence.PersistingMemoryEngine.Delete | src/engine/memory/structured-memory-runtime.ts:392-420 | Is exactly the delete of the specification: on success all three lose the record and nothing else; copies that agreed still do unless the table drops the row and then both the memory delete and its repair fail |
| MemoryPersistence.PersistingMemoryEngine.Reconcile | src/engine/memory/structured-memory-runtime.ts:422-424 | Memory becomes the given records, the table stays: they agree if and only if the records are the table's |
| MemoryPersistence.PersistingMemoryEngine.Rehydrate | src/engine/memory/structured-memory-runtime.ts:422-424 | Reconciling with the table's own rows brings all copies together from any state, a cache that differs from the index included |
| TranscriptCorrelation.BuildExchanges | src/engine/session/session-transcript.ts:596-612 | One exchange for each submission with an event, in the order of their first events, stated on the events |
| TranscriptCorrelation.CorrelatePrompts | src/engine/session/session-transcript.ts:760-818 | The three loops compute exactly the specified matching |
| TranscriptCorrelation.EveryPromptAssignedOnce | src/engine/session/session-transcript.ts:760-818 | Every prompt gets a result, no submission goes to two prompts, only submissions with an exchange are given, and no phase revises an earlier one |
| TranscriptCorrelation.NamedSubmissionDecides | src/engine/session/session-transcript.ts:772-782 | A prompt naming its submission gets it if and only if there is an exchange and no earlier prompt named it; else it gets nothing |
| TranscriptCorrelation.PositionDecides | src/engine/session/session-transcript.ts:784-798 | A prompt knowing only its stream position gets the first free operation in offset order started after it |
| TranscriptCorrelation.FirstFreeIsFirst | src/engine/session/session-transcript.ts:792-793 | No earlier free start is passed over, and none found means none free |
| TranscriptCorrelation.LeftoversDecided | src/engine/session/session-transcript.ts:800-815 | If as many prompts are left over as submissions not given away, a prompt gets the one whose first event comes after as many of the others as prompts are left over before it; else none does |
| TranscriptSnapshot.SanitizeInto | src/engine/session/session-transcript.ts:441-464 | Appends just the events whose identity has not been seen |
| TranscriptSnapshot.SnapshotHolds | src/engine/session/session-transcript.ts:230-267 | What is read: of the events after the start up to the snapshot exactly the first of each identity, in the order of the stream |
| TranscriptSnapshot.ReadTranscriptSnapshot | src/engine/session/session-transcript.ts:230-267 | Reads exactly the events after the start up to the snapshot, duplicates dropped; neither error of the loop can occur with a store that keeps its contract |
| TranscriptPaging.ProjectPromptTranscriptEntries | src/engine/session/session-transcript.ts:274-308 | Entries are the visible replayable prompts of the window and the internal ones with an exchange, in order |
| TranscriptPaging.Scan | src/engine/session/session-transcript.ts:158-190 | Fetches batches backwards until there are more entries than asked for or no more prompts; the cursor always advances |
| TranscriptPaging.LoadSessionTranscriptPage | src/engine/session/session-transcript.ts:127-228 | Returns exactly the specified page, or an invalid cursor for an unknown prompt |
| TranscriptPaging.PageIsContiguous | src/engine/session/session-transcript.ts:212-220 | A page holds all visible replayable prompts between the prompt its cursor names and its own end; without a cursor, nothing visible is older |
| TranscriptPaging.PagesCoverHistory | src/engine/session/session-transcript.ts:127-228 | Following the cursors terminates, and the pages together hold every replayable visible prompt exactly once, in order, for every limit |
| TranscriptPaging.EntriesCarry | src/engine/session/session-transcript.ts:274-308 | Each entry shows the submission its prompt is matched with among the replayable prompts of the window and the events after the first of them; and all prompts that are visible or matched have one |
| TranscriptPaging.PageCarries | src/engine/session/session-transcript.ts:212-220 | The entries of a page are entries of its window |
| TranscriptPaging.ScanFetches | src/engine/session/session-transcript.ts:158-190 | The window is so many batches of max(limit + 1, 100), at most 1000, as it takes to have more entries than asked for, or everything |
| TranscriptPaging.HasOlderIsExact | src/engine/session/session-transcript.ts:212-213 | For a limit of at least 1 a page is the newest entries of its window, at most the limit, and claims older ones if and only if it left some out; otherwise the window is the whole history |
| TranscriptPaging.ZeroLimitShowsAll | src/engine/session/session-transcript.ts:212-213 | With limit 0 the page shows all entries of the window it fetched, no visible replayable prompt of it missing, and claims older entries whenever it has any, even at the very start |
| Research.EnrichWebResults | src/workflows/retrieval.ts:161-245 | The fetch loop computes exactly the specified contexts and counts, with and without fetching |
| Research.FetchesTheFirst | src/workflows/retrieval.ts:190-233 | It tries exactly the first topK fetchable contexts, and changes no others |
| Research.FetchedContext | src/workflows/retrieval.ts:206-220 | A page with content replaces the tokens and adds 0.05 to the score, up to 1; anything else changes nothing |
| Research.FetchCounts | src/workflows/retrieval.ts:187-240 | The counts of pages tried, brought and failed |
| Research.PackAppends | src/workflows/retrieval.ts:258-296 | Packed one by one: whole if it fits into what is left, else shortened to that, and omitted only if nothing of it remains |
| Research.EnoughMeans | src/workflows/web-research.ts:259-284 | When the evidence is enough |
| Research.PackContexts | src/workflows/retrieval.ts:251-305 | Keeps the contexts in order, the last ones cut to what is left of the token budget or omitted |
| Research.RetrieveContext | src/workflows/retrieval.ts:45-102 | A retrieval hands its cap to the fetch loop and reports what that tried |
| Research.RetrievalKeepsCap | src/workflows/retrieval.ts:62-79 | So it tries at most topK pages, and its contexts fit the token budget |
| Research.RunIteration | src/workflows/web-research.ts:139-173 | Runs the iteration's queries, each with the fetches that are left, up to the first that brings enough evidence |
| Research.RunWebResearch | src/workflows/web-research.ts:134-176 | For any web: fetches stay within maxFetches, queries run are a prefix of the plan, the run stops exactly at the first query with enough evidence, else has run the whole plan within maxIterations, and returns the packing of all that was found, leaving out only what does not fit; and the iterations run are those it takes |
| Research.FetchesStayWithinBudget | src/workflows/web-research.ts:143-166 | Built from the retrieval itself: the fetches attempted never exceed the budget, after any number of queries |
| Research.SharesCover | src/workflows/web-research.ts:134-135 | maxIterations times the rounded-up share covers the plan, and no smaller share would |
| Research.PackUniqueContexts | src/workflows/web-research.ts:296-319 | Sources appear once, each by its best context, best scores first, within the token budget; one is left out only if its first context does not fit into what those packed before it leave, and none if they fit together |
| Ulid.EncodeTime | src/engine/memory/ulid.ts:11-20 | The loop computes the base-32 digits of the time |
| Ulid.DecodesBack | src/engine/memory/ulid.ts:11-20 | Decoding gives back every time that fits the length |
| Ulid.KeepsOrder | src/engine/memory/ulid.ts:11-20 | Later times sort later, as strings |
| Ulid.ParsesIff | crates/gorombo-memory/src/id.rs:49-79 | Exactly the strings the validator accepts |
| Ulid.AcceptedIff48Bits | crates/gorombo-memory/src/id.rs:60-79 | Of all times that fit ten characters, with any sixteen Crockford characters appended, the validator accepts exactly those below 2^48 |

## Left out

- Restarting a stopped schedule manager: the shutdown flag is never cleared, so a second start would arm nothing.
- Failing SQLite statements of the schedule store, and a process crash between two steps: each statement is atomic and succeeds, except a run start whose schedule is gone.
- Columns that nothing in the protocol reads: last fired, next fire, finish times, counters; and the removal of old run rows at boot.
- Cron pattern parsing and next-run computation: a save says whether its pattern is valid.
- A failing preflight, which the stub in the source never reports, and timers that fire while continuations are still waiting: the state machine allows both, which is harmless for what holds over all runs. Runs that are claimed to exist use neither (ScheduleRuns.Orderly), but the order of the continuations among themselves is free, and in ScheduleStop.MovesOnIff a timer may come first unless the state is quiet.
- Error classification by words in the message: an arbitrary function of the message.
- Delays of retry backoff, and the clamps of configuration values: a retry timer may fire at any later moment, and a lower bound of one slot is assumed only where it matters (ScheduleConsequences.NobodyStranded and that a retry past its check can dispatch).
- ScheduleManagement.ScheduleStore.RecordRunTerminal: the last-run columns of the parent schedule, which nothing in the protocol reads, are not updated.
- ScheduleManagement.ScheduleStore.Upsert: whether a definition is valid is one verdict, and fields that nothing in the protocol reads are not part of it.
- ScheduleManagement.ScheduleManager.SaveSchedule: the owner checks of the tools and routes that lead to it.
- ScheduleManagement.ScheduleManager.HandleAgentEvent: schedule and run ids are taken to be 26 characters long, as generated ids are.
- Cloning, copying, hashing and scanning of packages: staging yields some content or fails, and validation is a fixed verdict on content for a capability.
- Recursive deletions that fail half-way: a deletion removes everything or nothing. Roll-back steps themselves (renaming a backup back, deleting a promoted directory, the compensating write) succeed.
- Registry and directories changed by two calls at once: lifecycle calls are synchronous and run one after the other.
- Validation, listing and inspection without mutation, progress events and protocol bundles.
- CapabilityService.CapabilityLifecycleService.AddCapability: identity checks (name, source, reference) are one verdict on the record, not spelled out.
- ChecklistTree.RenderChecklistTree: nodes are entries of a map from id to children rather than objects that share their children arrays, so aliasing is not captured.
- MemoryRanking.KeywordScore: exact fractions instead of floating point, and the text arrives already split into lower-case words.
- MemoryPersistence.PersistingMemoryEngine.Update: the patch is an arbitrary function of the old record that keeps id and kind; overlapping operations, which can diverge, are not modelled.
- MemoryPersistence.StructuredMemoryDatabase.LoadAllRecords: rows that no longer parse, which the original drops silently, do not occur, and the order of the rows is left open.
- The vector index of session notes, cleanup of expired records, and the keyword search of the index that no export calls.
- The query of the TypeScript in-memory engine, which breaks ties by insertion order instead of id.
- TranscriptSnapshot.SanitizeInto: turning raw events into sanitised ones, with the state that it carries along, is not modelled.
- TranscriptSnapshot.ReadTranscriptSnapshot: offsets are numbers, the store returns the events after an offset in order and its snapshot is the offset of an event.
- TranscriptCorrelation.BuildExchanges: the activities, previews and status inside an exchange.
- TranscriptPaging.PagesCoverHistory: internal prompts appear only with an exchange, and which exchange a window gives them may differ from page to page, so nothing is claimed about them.
- Cursor encoding as text, and the one-shot projection of a whole session.
- Query plan wording, source confidence, caches and providers of research runs; randomness of identifiers.
- HTTP routes, chat connectors, terminal interface, configuration readers, telemetry and slash commands: plumbing that would add only easy members.
