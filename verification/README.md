# Verified model of rogojin's coordination core

rogojin runs workflow tasks with durable checkpoints, leases shared resources to them, listens to
mailboxes for them, and keeps its state in SQLite. This project models the four protocols in it
where concurrency, crashes and failing stores meet, plus the migration ledger, and proves what they
promise over every interleaving.

- **Leasing.** `LeasingModel` gives one function per critical section of the leasing manager;
  `LeasingInvariant`, `LeasingAllocation`, `LeasingWakeups` and `LeasingRestart` prove what all runs
  keep, what a grant may be, that no grant is slept through, and what a restart finds; `LeasingRotation`
  and `LeasingOutcomes` how even grants are and what each call comes to for its caller; and `LeasingManager` is the manager itself, fields updated in place, each method proved to do what its
  function says. `RoundRobin` and `ProxyLease` are the built-in rotation and the proxies' release latch.
- **The run engine.** `EffectLog` is the durable effect log behind `Do` and the snapshot envelope.
  `EngineModel` is a transition system with a step per critical section, store write, handler act,
  control call and crash; `EngineTheorems` proves crash recovery, at-most-once effects, lifecycle and
  detach over all its runs, `EngineControls` what each control call comes to, `EngineOutcomes` what an
  end, an output and a recovered instance are worth, `EngineSuspension` what a persisted suspend survives and
  `EngineStaleHandles` what a handle over an old record does (`EngineWalks` holds the stretches of run
  both exhibit); `RunEngine` (file `Engine.dfy`) is the run loop and the task's `Start`, proved to be
  runs of it whatever else happens between their critical sections.
- **The mail listener.** `EmailModel` and `EmailTheorems` treat one inbox with any number of
  listeners, subscriptions, sessions, renumberings and restarts, and `EmailDelivery` shows that mail gets
  through and what each call comes to; `EmailRegister` is the manager's state
  over all inboxes as one value, with what each operation is to each inbox; `EmailManager` is the
  manager itself, changed in place, and `EmailListener` the goroutine of one listener among everyone
  else's calls, feeds and goroutines.
- **Tasks and resources.** `TaskManager` composes engines and leasing: placement, reassignment,
  recovery and the sealed cascade that deletes a task group.
- **Migrations.** `Migrations` is the ledger's transactional sweep.

`Wrappers` holds what the modules share. `dafny verify dfyconfig.toml` checks the whole project.

A store may fail any write, and a failed write changes nothing: store methods return a
nondeterministic success, and specification functions take it as an argument. The repositories count
what they are asked for, so a method that reports a failed write is shown to have asked for it. Handlers, strategies
and the mail server are likewise arbitrary. Identifiers, names, addresses and encoded values are
integers, with 0 for the empty string.

Three things the code's comments or a reader might expect do not hold, and are stated as they are. A
lock does not wake a pinned acquire of the same task that is asleep (`LockingElsewhereWakesNobody`);
grants are never slept through. A persisted suspend is forgotten when a recovered task's park cannot be
written down and the failed stamp that follows lands (`FailedParkForgetsTheSuspend`); it survives
everything else short of a resume or a kill, exactly as long as no terminal stamp lands
(`SuspendSurvives`). And the at-most-once guarantee needs a handle to be started from the record as it
stands: a handle recovered earlier and started late runs a durable effect again (`StaleHandleRepeats`),
in some run, exactly if its own snapshot lacks the effect and it can run at all (`StaleHandleExactly`).

## Model

| member | source | states |
|---|---|---|
| LeasingInvariant.RunKeepsInv | leasing/manager.go:28-40 | Every run of operations, whatever the stores and strategies answer, keeps the whole invariant: `order` lists the pooled ids once each; every pooled resource has an existing group with a strategy; a task is bound to r exactly when pooled r has it as owner; holder tables have no zero or empty entry, only pooled resources, caps and locks respected; holder counts equal the unreleased leases; stored rows and groups equal the in-memory ones |
| LeasingInvariant.KeptByApply | leasing/manager.go:187-943 | Each single operation keeps that invariant, failed writes and partial cascades included |
| LeasingInvariant.BindingsAreLive | leasing/manager.go:437-442 | A bound task is always bound to a pooled resource it owns, so the branches for a binding whose resource is gone are never taken |
| LeasingInvariant.KeptByDeleteGroup | leasing/manager.go:258-299 | A group cascade that stops after any number of its removals, or before its last write, leaves the invariant intact |
| LeasingInvariant.KeptByPass | leasing/manager.go:426-486 | One pass of the acquire loop keeps the invariant, whatever the strategy answers and whether or not the lock is saved |
| LeasingInvariant.KeptByRelease | leasing/manager.go:683-694 | A release keeps the holder tables equal to the unreleased leases, pruning emptied entries |
| LeasingAllocation.GrantIsAllowed | leasing/manager.go:437-482 | Under any strategy, a grant is the task's bound resource held by nobody, else its pin, else an unlocked under-cap member of the assigned group; a lock lands on an idle resource and is stored before it is handed out |
| LeasingAllocation.NoGrantNoLease | leasing/manager.go:446-486 | A pass that does not grant leaves pool, bindings, holders, leases and store as they were |
| LeasingAllocation.AllocationIsSafe | leasing/manager.go:669-704 | Over every run, however many unreleased leases on one resource are picked out, they never exceed its effective cap, and on a locked resource there is at most one, its owner's |
| LeasingAllocation.LeasesRespectCapsAndLocks | leasing/manager.go:661-704 | The same in any state satisfying the invariant |
| LeasingAllocation.LiveLeaseProtects | leasing/manager.go:852-907 | No operation removes or re-adds a resource with a live lease, so a resource re-added under an old id inherits no holder |
| LeasingAllocation.OnlyOwnRotationMoves | leasing/manager.go:748-768 | A group's rotation moves only for an unpinned pass of an unbound task in that group, and then by one |
| LeasingAllocation.PinConflictExactly | leasing/manager.go:443-449 | A pass reports a pin conflict exactly when its pin is sound and the task's lock names another resource |
| LeasingAllocation.StaleLockKeptExactlyWhenItFits | leasing/manager.go:803-824 | ReleaseStaleLock keeps the lock exactly when the placement fits the locked resource; otherwise the stored row loses its owner and waiters are woken |
| LeasingAllocation.ReassignmentEndsConflicts | leasing/manager.go:789-815 | After ReleaseStaleLock returns, no pass under that placement reports a pin conflict, over any further operations, until the task locks again |
| LeasingRotation.PassFollowsTheRotation | leasing/manager.go:724-768 | An unpinned acquire of an unbound task is granted the candidate its group's rotation has come to, and moves the rotation on by one |
| LeasingRotation.PassFollowsTheStrategy | leasing/manager.go:748-768 | Under a consumer's strategy its pick is granted if it is a candidate; its error and a pick that is no candidate are the refusals |
| LeasingRotation.GrantsGoRound | leasing/roundrobin.go:22-31 | Any number of shared acquires over unchanging candidates are all granted, going round the candidates from where the manager's rotation stands |
| LeasingRotation.GrantsAreEven | leasing/roundrobin.go:8-10 | So n acquires over n candidates grant each exactly once, and after any number no candidate was granted more than once more often than another |
| LeasingRotation.UncappedGrantsAreEven | leasing/manager.go:724-768 | The same for any unbound tasks over a group's uncapped free resources, with nothing assumed about the candidates in between |
| LeasingRotation.CandidatesInOrder | leasing/manager.go:724-744 | Candidates stand in the pool's order |
| LeasingOutcomes.PinAnswers | leasing/manager.go:500-522 | A pin is refused exactly when its resource is not pooled, is in another group, or is locked by another task |
| LeasingOutcomes.GroupAnswers | leasing/manager.go:463-470 | An unbound, unpinned task is turned away exactly when its group does not exist or has no member |
| LeasingOutcomes.PinRoom | leasing/manager.go:661-669 | A sound pin is granted exactly while fewer leases live than the record allows, one where it does not say, any number where it is unlimited; otherwise it waits |
| LeasingOutcomes.PinLocks | leasing/manager.go:463-482 | A lock takes its pin only idle, and is then in the store, in memory and in the lease at once |
| LeasingOutcomes.BoundRoom | leasing/manager.go:437-456 | A bound task leases its own resource, one lease at a time, whatever group it names |
| LeasingOutcomes.CapsHold | leasing/manager.go:661-704 | Over every run, no more leases live on a resource than its record allows |
| LeasingOutcomes.StaleLockGoes | leasing/manager.go:803-824 | ReleaseStaleLock leaves the lock exactly if the pin is the locked resource, or, unpinned, the group is its group |
| LeasingOutcomes.ReassignedGrantsFit | leasing/manager.go:789-815 | After it returns, over any further operations until the task locks again, everything granted under that placement is its pin, or is in its group |
| LeasingOutcomes.UnlockedIsGranted | leasing/manager.go:778-787 | A resource unlocked while idle is granted at once to whoever pins it, who was refused it before |
| LeasingOutcomes.SecondUnlockIsNothing | leasing/manager.go:778-787 | Unlocking again succeeds and does nothing |
| LeasingOutcomes.CreateGroupInstalls | leasing/manager.go:187-206 | Exactly when a group is created, and that its rotation starts at the first candidate |
| LeasingOutcomes.UpdateGroupInstalls | leasing/manager.go:217-241 | Exactly when an edit takes; it cannot rename the group, and renews the strategy exactly if it changes it |
| LeasingOutcomes.EditKeepsItsTurn | leasing/manager.go:228-236 | After an edit that keeps the strategy the group's next grant is the one it would have been without |
| LeasingOutcomes.DeleteGroupReports | leasing/manager.go:258-299 | Each refusal exactly; otherwise the tasks reported are exactly those that lost their lock, however far the cascade got |
| LeasingOutcomes.MembersInOrder | leasing/manager.go:303-311 | A cascade walks the members in the pool's order |
| LeasingOutcomes.AddInstalls | leasing/manager.go:317-350 | Exactly when a resource is added: at the end of the order, with the cap and body it came with, in the global group if it names none |
| LeasingOutcomes.AddedIsGranted | leasing/manager.go:317-350 | What was added is granted at once to whoever pins it, as it was added |
| LeasingOutcomes.DeleteReports | leasing/manager.go:852-877 | A delete is refused exactly under a live lease; when it lands the tasks reported are exactly those that lost their lock |
| LeasingOutcomes.UpdateInstalls | leasing/manager.go:361-379 | An update changes the body, in memory and store, and nothing else |
| LeasingWakeups.NoLostWakeup | leasing/manager.go:411-427 | In every interleaving, a parked acquire that some pass could now grant has been notified; one not notified would park again exactly unless its own task has been locked elsewhere; a cancelled one has been notified or its watcher's broadcast is still to come and notifies it |
| LeasingWakeups.GrantableExactly | leasing/manager.go:437-482 | When some strategy answer and store outcome would grant an acquire, in terms of pins, locks, caps and idleness |
| LeasingWakeups.SilentOpsEnableNothing | leasing/manager.go:187-250 | Whatever does not broadcast cannot make a waiting acquire grantable |
| LeasingWakeups.SilentOpsKeepParked | leasing/manager.go:463-485 | Whatever does not broadcast leaves a parked acquire one whose next pass parks, unless it locks that very task elsewhere |
| LeasingWakeups.ParksExactly | leasing/manager.go:429-485 | When a pass waits rather than grants or fails, for every strategy and store |
| LeasingWakeups.LockingElsewhereWakesNobody | leasing/manager.go:443-449 | The exception is real: a run, from a world where nobody waits, in which a pinned acquire falls asleep, its task locks another resource, and it sleeps on although its next pass would report a pin conflict, because Lock does not broadcast |
| LeasingRestart.RestartIsFaithful | leasing/manager.go:67-139 | Loading any listing of the store of any reachable manager succeeds and rebuilds exactly its groups, pool and bindings |
| LeasingRestart.CrashAnywhereRestarts | leasing/manager.go:258-299 | A crash between any two store writes of any operation: the restart succeeds and rebuilds the state of the operation cut there |
| LeasingRestart.CutCascadeIsAPrefix | leasing/manager.go:276-290 | A group cascade cut after n removals has removed exactly the first n members and kept the group |
| LeasingRestart.LoadedIsSound | leasing/manager.go:111-138 | Whatever NewManager loads satisfies the invariant from the first moment |
| LeasingManager.Manager.NewManager | leasing/manager.go:67-139 | Succeeds exactly on a listing without duplicates, unknown groups or strategies, bad policies or doubly locked tasks whose one write lands; loads exactly that listing and persists the global group if absent |
| LeasingManager.Manager.CreateGroup | leasing/manager.go:187-206 | Refusals and the new state, as the specification function decides; nothing changes when the save fails |
| LeasingManager.Manager.UpdateGroup | leasing/manager.go:217-241 | Applies the edit with the id undone; a changed strategy starts fresh, an unchanged one keeps its state |
| LeasingManager.Manager.DeleteGroup | leasing/manager.go:258-299 | Refuses the global, unknown or held group; otherwise removes members in order, each row before its binding, and reports the owners unbound, as far as the deletes landed |
| LeasingManager.Manager.Add | leasing/manager.go:317-350 | Installs a new unlocked resource, store first, and broadcasts; each refusal leaves everything alone |
| LeasingManager.Manager.Update | leasing/manager.go:361-379 | Applies the edit to the body only: the leasing fields are put back before the save |
| LeasingManager.Manager.Delete | leasing/manager.go:852-877 | Refuses a held resource; removes an idle one, store first, then its binding, reporting the owner |
| LeasingManager.Manager.CandidateIds | leasing/manager.go:724-744 | The candidates are exactly the eligible resources of the group, in pool order |
| LeasingManager.Manager.SelectUnlocked | leasing/manager.go:724-768 | The pin without asking the strategy; else the candidate the rotation has come to, or a consumer's pick if it is a candidate, else its failure |
| LeasingManager.Manager.AcquirePass | leasing/manager.go:426-486 | One pass: grant, refusal or wait, exactly as specified; a grant hands out one fresh lease on the record as pooled |
| LeasingManager.Manager.Acquire | leasing/manager.go:403-487 | The blocking loop: at each look but the last it was not cancelled and had to wait, and other callers ran in between; it is cancelled exactly when its context is done at a look, and otherwise its outcome is that of its last pass; a lease is returned exactly on a grant |
| LeasingManager.Manager.Unlock | leasing/manager.go:778-787 | Frees the task's lock, store first, and broadcasts; a no-op without one |
| LeasingManager.Manager.ReleaseStaleLock | leasing/manager.go:803-815 | Drops the lock unless the placement fits it |
| LeasingManager.Manager.CountHeld | leasing/manager.go:698-704 | The loop over a resource's holders sums its live leases |
| LeasingManager.Lease.Release | leasing/manager.go:929-943 | Only the first release acts: it frees exactly one slot, that of this lease, and broadcasts |
| LeasingManager.Manager.UnholdSlot | leasing/manager.go:683-694 | Drops one live lease of the holder and prunes emptied tables |
| RoundRobin.Rotation.Select | leasing/roundrobin.go:22-31 | Returns the candidate at the cursor modulo the list and advances the cursor; an empty list is an error that moves nothing |
| RoundRobin.Rotation.SelectMany | leasing/roundrobin.go:22-31 | A burst of selections over one list picks the rotation's positions in order |
| RoundRobin.EveryPositionOnce | leasing/roundrobin.go:22-31 | Any n consecutive selections over n candidates pick each position exactly once, from any cursor |
| RoundRobin.RotationIsBalanced | leasing/roundrobin.go:8-10 | After any number of selections the pick counts of any two positions differ by at most one |
| RoundRobin.PickCount | leasing/roundrobin.go:22-31 | Each position has been picked once per full round, plus at most once more |
| ProxyLease.ProxyLease.ReleaseOutcome | proxies/manager.go:90-103 | The first release adds one success or one failure to the pooled and stored record and then frees the slot, also when the tally is not saved; a later one changes nothing |
| ProxyLease.ProxyLease.Release | proxies/manager.go:109-111 | Shares the latch: acts only if neither release has acted |
| ProxyLease.ReleaseTwice | proxies/manager.go:84-89 | In either order the second release changes nothing: the manager ends with one slot freed, and with a tally exactly if the outcome came first and was stored |
| EffectLog.SnapshotRoundTrips | workflows/module.go:104-128 | Snapshot followed by recovery gives back the same input, effect log and durable state, for every instance whose constructor registers durable state by workflow |
| EffectLog.SnapshotThenRestore | workflows/module.go:104-128 | The same through the two methods: the instance restored from what Snapshot wrote has the same input, log and durable state |
| EffectLog.RoundTripExactly | workflows/base.go:96-123 | The round trip holds exactly when the constructor registers durable state just when the instance has some |
| EffectLog.Base.NewInstance | workflows/module.go:81-102 | A fresh instance: its input recorded, its log empty, its durable state as built |
| EffectLog.Base.RestoreInstance | workflows/module.go:104-128 | A recovered instance is the decoded envelope over the constructor's instance |
| EffectLog.Base.Snapshot | workflows/base.go:96-106 | The envelope encodes exactly input, log and registered durable state |
| EffectLog.Base.Do | workflows/base.go:139-164 | A recorded key replays its value and runs nothing; otherwise the effect runs once, is recorded, and is durable if the checkpoint landed; a failed effect records nothing |
| EffectLog.Base.Retry | workflows/policy.go:45-68 | Every run but the last failed and was worth retrying; it stops at the first success or permanent failure, else only out of attempts or cancelled; however many runs that takes, no effect runs twice, none already recorded runs at all, and the log loses nothing |
| EffectLog.Base.Handle | workflows/base.go:125-138 | One handler run over any keys, repeats included, which may give up on a failed Do or swallow it, runs each effect at most once and no recorded one |
| EngineTheorems.RecoveryReplaysOnlyInFlight | tasks/engine.go:140-200 | Over any runs cut by any crashes, failures and control calls, the states entered form a path of the edges handlers took whose only repeats are re-entries, at the start of a later run, of the state last entered; the record always names that state or the one it led to; a handler is about to be entered only with a running checkpoint of that state, and the log as it stands, landed |
| EngineTheorems.EffectsAtMostOnce | workflows/base.go:125-138 | From the moment a checkpoint holding a key has landed, no continuation runs that effect again, the durable log only grows, and every later handler finds the recorded value |
| EngineTheorems.DurableEffectsKept | tasks/engine.go:217-242 | No step forgets or alters a durable effect, nor runs one again |
| EngineTheorems.RecordedEffectsRunOnce | workflows/base.go:133-138 | Within one handle, an effect recorded only in memory is not run again either |
| EngineStaleHandles.StaleHandleExactly | tasks/tasks.go:158-166 | An unstarted handle over any record, however old, never runs an effect again in any run it may drive, exactly if its own snapshot holds the effect or it can enter no handler at all; what the record holds by now does not matter |
| EngineStaleHandles.StaleHandleRepeats | tasks/tasks.go:154-157 | It happens: a record read at a run's first checkpoint, an effect made durable later in that run, and, that run over, a handle over the earlier record that runs the effect a second time |
| EngineTheorems.OutcomesAreAbsorbing | tasks/engine.go:83-108 | A handle's engine leaves not-started once and never returns; done, failed, killed and detached are for good; a sealed engine that is not live never becomes live until unsealed |
| EngineTheorems.SecondStartIsRefused | tasks/engine.go:83-100 | Once a run has begun on a handle, however it stands by now, the engine's own fields refuse another; a Start then, or on a sealed or killed one, changes nothing at all |
| EngineTheorems.KillStopsTheRun | tasks/engine.go:358-382 | After a kill at most one further handler is entered, the one already past its boundary, and the engine stays killed |
| EngineTheorems.KillBeatsDetach | tasks/engine.go:158-170 | A killed run never ends as a detached one |
| EngineControls.KillTakesEffect | tasks/engine.go:358-382 | A kill of an engine not yet settled takes: over whatever comes after it on the handle the engine stays killed, at most the handler already past its boundary is entered, and a run not begun never begins |
| EngineControls.KillTooLate | tasks/engine.go:358-382 | On a settled or detached engine it changes nothing |
| EngineControls.KilledHandlerWritesNothing | tasks/engine.go:217-227 | A handler that a kill finds executing checkpoints nothing more |
| EngineControls.SuspendTakesEffect | tasks/engine.go:310-319 | A suspend of a running engine takes: until a resume or a kill it does not run again, and at most the handler already past its boundary is entered |
| EngineControls.ResumeUndoesSuspend | tasks/engine.go:321-336 | A resume before the boundary leaves no trace of the suspend |
| EngineControls.ResumeWakes | tasks/engine.go:152-170 | A parked run that is resumed goes on into the state it was parked before |
| EngineControls.DetachEndsTheRun | tasks/engine.go:338-356 | A parked run that is detached ends detached at that state, whatever else is called short of a kill |
| EngineControls.DetachRefused | tasks/engine.go:345-356 | A detach of any engine that is not suspended changes nothing |
| EngineControls.SealShutsOut | tasks/engine.go:270-283 | A seal with no run under way takes: no run begins on the engine until it is unsealed |
| EngineControls.SealsComeOff | tasks/engine.go:275-290 | With a run under way a seal is refused; an unseal takes one back whole |
| EngineControls.TerminalRecordsAreFinal | tasks/tasks.go:224-268 | No handle over a record stamped done or killed ever runs, through any calls, crashes and recoveries, and nothing writes it again |
| EngineOutcomes.CleanEndsAreComplete | tasks/engine.go:172-184 | Over all runs: a run ends without an error only if its last handler returned no next state, and then with a harvested output if the workflow has one |
| EngineOutcomes.OnlyKnownStates | tasks/engine.go:172-178 | No handler is ever entered for a state the workflow does not have |
| EngineOutcomes.HarvestStays | tasks/engine.go:244-262 | Once harvested an output stays to the end of the handle, whatever is called, and every stamp from then on carries it |
| EngineOutcomes.HarvestReachesTheRow | tasks/engine.go:387-411 | A harvested output whose stamp lands is in the row, which is done, or killed if the run was |
| EngineOutcomes.NothingToHarvest | tasks/engine.go:244-251 | A workflow without outputs completes as done with none harvested |
| EngineOutcomes.NothingStoredNothingFails | tasks/engine.go:232-242 | Where nothing snapshots or nothing stores, no run fails for a checkpoint |
| EngineOutcomes.OutcomesTellTheEnd | tasks/engine.go:387-405 | A run nobody kills ends suspended exactly if it detached, failed exactly on another error, done exactly on none |
| EngineOutcomes.LoggedEffectsRan | workflows/base.go:139-164 | In every run a key is in the log, live or durable, only if its effect has run |
| EngineOutcomes.CrashRestoresTheInstance | workflows/base.go:96-123 | After a landed checkpoint and a crash the next run re-enters the state with the same input, every effect's value and the durable state |
| EngineTheorems.StampsMatchOutcomes | tasks/engine.go:387-411 | Every terminal stamp that lands writes the run's own outcome and result: failed only with a run error, done only without one, or killed; never for a detached run |
| EngineTheorems.WhoWritesTheRecord | tasks/engine.go:217-242 | The record changes only by a stamp that lands, a suspended checkpoint before parking, or a running checkpoint before or inside a handler; once a run has detached nothing writes it |
| EngineTheorems.TornDownOnce | tasks/engine.go:114-124 | Teardown runs exactly once for every run that reaches its end |
| EngineTheorems.DetachIsRecoverable | tasks/engine.go:146-170 | A detached run with a next state leaves the unstamped suspended checkpoint of that state, from which a recovered handle restores the same log and goes to park there; with none left, the running checkpoint of the last state stands unstamped and is what recovery re-enters |
| EngineSuspension.SuspendSurvives | tasks/engine.go:143-157 | A task whose record says suspended, while nobody resumes or kills it, stays out of every handler and recorded as suspended, through any detaches, crashes, recoveries and failing writes, exactly as long as no terminal stamp lands |
| EngineSuspension.FailedParkForgetsTheSuspend | tasks/engine.go:387-411 | A stamp can land: for every recovered suspended task whose state exists there is a run, with no resume and no kill, in which the park cannot be written down, the run is stamped failed, and the next handle enters the state's handler |
| EngineTheorems.PlayKeepsOk | tasks/engine.go:83-201 | Every interleaving keeps the relations between program counter, engine fields, record, effect log and entered states |
| RunEngine.Runner.Run | tasks/engine.go:83-201 | The run loop, with arbitrary handlers, failing writes and control calls between any two critical sections, is a run of the transition system; it is refused exactly when sealed or begun before, a clean end has completed and harvested its output, and a stamped end leaves the row and the engine in agreement |
| RunEngine.Runner.Gate | tasks/engine.go:140-170 | A boundary: suspended checkpoint, parking, and the decision between kill, detach and going on |
| RunEngine.Runner.Park | tasks/engine.go:152-157 | Waits exactly while suspended and not detaching |
| RunEngine.Runner.Proceed | tasks/engine.go:172-184 | An unknown next state is an error; with no next state the output is harvested into the engine, or the run fails |
| RunEngine.Runner.MidCheckpoint | tasks/engine.go:217-227 | A handler's checkpoint is refused unless a state is executing, else stamped running at that state with the log as it stands |
| RunEngine.Runner.Checkpoint | tasks/engine.go:232-242 | A no-op where nothing snapshots or nothing stores; otherwise the row is the checkpoint or unchanged |
| RunEngine.Runner.WindUp | tasks/engine.go:114-126 | Finish, stamp, teardown, in that order, whatever ended the loop |
| RunEngine.Runner.Finish | tasks/engine.go:387-405 | The outcome: killed stays killed, an error is failed, else done; a detached run stamps nothing |
| RunEngine.Runner.Do | workflows/base.go:139-164 | Do against the live engine: a fresh effect whose checkpoint landed is in the durable row |
| RunEngine.Runner.Handler | tasks/engine.go:189-198 | Any handler going through Do, its checkpoints and its durable state is a run of the transition system |
| RunEngine.Runner.Suspend | tasks/engine.go:310-319 | Suspends only a running, undetached engine |
| RunEngine.Runner.Resume | tasks/engine.go:325-336 | Resumes only a suspended, undetached engine |
| RunEngine.Runner.Detach | tasks/engine.go:345-356 | Refused unless suspended; repeating it is a no-op |
| RunEngine.Runner.Kill | tasks/engine.go:362-382 | Not started, running or suspended becomes killed, unless already detached; anything else stays |
| RunEngine.Runner.Seal | tasks/engine.go:275-283 | Seals exactly an engine that is not live |
| RunEngine.Task.New | tasks/tasks.go:134-153 | A created task starts from its input with nothing recorded |
| RunEngine.Task.Rehydrate | tasks/tasks.go:158-166 | A recovered task starts from the row as it stands, whatever happened before |
| RunEngine.Task.Start | tasks/tasks.go:224-268 | Dispatch on the recovered status, the refusals that change nothing, and the epilogue: task, engine and, if the stamp landed, the row agree; failed only with an error, done only without, suspended only when detached |
| EmailTheorems.CursorNeverPassesMail | email/listener.go:142-171 | In any run, every message the server still holds with a UID above the last reset and up to the stored LastUID, in the cursor's UIDVALIDITY, was offered to somebody subscribed, despite superseded listeners, failed saves, broken sessions and restarts (section 2.3.1.1 of RFC 3501) |
| EmailTheorems.DeliveryIsWhole | email/manager.go:405-434 | A message is offered only by the listener that owns the inbox at that moment, to every subscription then attached, each of which takes in every message its filter admits |
| EmailDelivery.MailGetsThrough | email/listener.go:142-171 | A turn of the owner that nothing breaks offers everything the server holds above the cursor to everyone attached, and leaves the stored cursor at the last of it |
| EmailDelivery.EveryoneHears | email/manager.go:378-403 | Each such message is offered to an attached subscription exactly if it filters for that sender or for none, and queued while there is room |
| EmailDelivery.FetchedOnce | email/listener.go:142-171 | Nothing of one turn is fetched again by the next |
| EmailDelivery.OffersFillTheBuffer | email/manager.go:390-403 | A round of offers queues the first matching messages that fit, in order, and counts exactly the rest as dropped |
| EmailDelivery.BackfillTakes | email/manager.go:446-467 | A backfill queues, of the history it fetched, what matches and fits, for the one subscription alone, and nothing for a closed one |
| EmailDelivery.ReceivedInOrder | email/manager.go:343-347 | What was queued is received first in, first out |
| EmailDelivery.RenumberedJoinsAtThePresent | email/listener.go:117-140 | A session that finds another UIDVALIDITY moves the cursor to the end of the mailbox as selected |
| EmailDelivery.SameNumberingGoesOn | email/listener.go:117-140 | One that finds the same goes on from the cursor as it stands |
| EmailDelivery.ListenTakes | email/manager.go:271-332 | Exactly when listening takes, and that it leaves one open, empty subscription as asked for, on the inbox's one listener |
| EmailDelivery.CloseTakes | email/manager.go:362-375 | Closing a subscription closes that one alone, and stops the listener exactly if it was the last |
| EmailDelivery.StoppedLeaves | email/listener.go:78-111 | A stopped listener's goroutine goes away at the end of its session |
| EmailDelivery.ShutDownIsFinal | email/manager.go:204-227 | After the manager's Close every listener is stopped, every subscription closed, and nobody listens again until the process ends |
| EmailDelivery.RestartListensAgain | email/manager.go:89-115 | A new process knows the row as stored and takes listeners again |
| EmailDelivery.AddTakes | email/manager.go:120-146 | Exactly when an email is added; it can then be listened to exactly if it came with an inbox |
| EmailDelivery.DeleteTakes | email/manager.go:168-197 | Exactly when an email goes, from memory and store, after which nobody can listen to it |
| EmailTheorems.CursorOnlyForward | email/listener.go:195-222 | Short of deleting the email, LastUID never decreases within a UIDVALIDITY, and a UIDVALIDITY once left is never returned to, for a cursor of a UIDVALIDITY the server has reached |
| EmailTheorems.CursorForwardStep | email/listener.go:195-222 | No step but a deletion takes the stored cursor back, except a reset from a UIDVALIDITY later than the session's, which always does |
| EmailTheorems.CursorsAreReached | email/listener.go:134-140 | From the start and over deletions too, the cursor stays of a UIDVALIDITY the server has reached, as long as no email is added with a later one |
| EmailTheorems.ResetsOnlyOnRenumbering | email/listener.go:134-140 | The reset point moves only when the owner finds another UIDVALIDITY, to the end of the mailbox it selected, or for a row newly added, to where its cursor is |
| EmailTheorems.OnlyTheOwnerMovesTheCursor | email/listener.go:174-193 | A cursor is moved only by the inbox's owner |
| EmailTheorems.SupersededIsInert | email/listener.go:174-180 | A listener that lost its inbox delivers nothing and writes nothing, whatever its session still holds |
| EmailTheorems.PlayKeepsWorld | email/manager.go:42-59 | Every interleaving keeps the relations between rows, registered listener, subscriptions, sessions, mailboxes and offers |
| EmailTheorems.LifecycleIsSafe | email/manager.go:349-375 | A registered listener always has a subscription; no stop channel and no subscription channel is closed twice; exactly the attached subscriptions are open |
| EmailTheorems.OldCloseIsHarmless | email/manager.go:362-375 | A Close of a subscription no longer attached changes nothing: it never stops the successor's listener |
| EmailTheorems.ClosedForGood | email/manager.go:334-358 | Once closed by either route a subscription is sent nothing and counts nothing more, and closing it again changes nothing, until the process ends |
| EmailTheorems.AccountsBalance | email/manager.go:390-403 | In every run, for every subscription: matching offers while open equal messages sent plus drops counted, the buffer bound holds, and what was sent is an order-preserving subsequence of the offers |
| EmailTheorems.SubsequencePicks | email/manager.go:390-403 | Being such a subsequence means being picked out by ascending positions |
| EmailTheorems.OffersAreTheMatches | email/manager.go:377-403 | A round of offers adds to an open subscription's offers exactly the messages from the sender it filters for, or all without a filter, in order |
| EmailTheorems.ListenedIsKept | email/manager.go:168-197 | Delete refuses exactly a known email that is listened to or held, and never removes one with a registered listener |
| EmailManager.Manager.constructor | email/manager.go:89-115 | Loads the inventory; nothing listens |
| EmailManager.Manager.Listen | email/manager.go:271-332 | Each refusal in its order, changing nothing; otherwise one new subscription attached to the inbox's one listener, started if there was none |
| EmailManager.Manager.StartListener | email/manager.go:305-310 | One fresh listener, registered with no subscription for an inbox that had none |
| EmailManager.Manager.Unsubscribe | email/manager.go:362-375 | Detaches and retires the subscription, hanging up the listener it leaves without any; other inboxes are untouched |
| EmailManager.Manager.Close | email/manager.go:204-227 | Stops every listener and retires every attached subscription, on every inbox |
| EmailManager.Manager.Delete | email/manager.go:168-197 | Refused while listened to or held; reports the idle locks it strands; store first |
| EmailManager.Manager.Add | email/manager.go:120-146 | Refuses incomplete, duplicate or invalid emails; store first; a new row holds whatever cursor its inbox carries |
| EmailManager.Manager.Fanout | email/manager.go:411-434 | The nested loops offer every message, in order, to every subscription of the owner, and return the highest UID; a superseded listener delivers nothing |
| EmailManager.Manager.Backfill | email/manager.go:459-467 | Offers the history in order to the one subscription, whether or not it is still open |
| EmailManager.Manager.ReadCursor | email/listener.go:184-193 | The cursor, for the inbox's owner alone |
| EmailManager.Manager.AdvanceCursor | email/listener.go:200-222 | Store first; forward only unless a reset; a superseded listener writes nothing; a failed save changes nothing |
| EmailManager.Subscription.Offer | email/manager.go:378-403 | Delivers without blocking: a message from the sender filtered for, or any without a filter, is queued while there is room and counted as dropped if not; anything else, and everything once closed, is ignored |
| EmailManager.Subscription.Retire | email/manager.go:352-358 | Closes the channel the first time only |
| EmailListener.Service.ServeOnce | email/listener.go:116-172 | One session is a run of the transition system, with anyone subscribing, closing, reading or having a feed backfilled, shutting down or editing, other listeners of the inbox taking their own steps, and mail moving, between any two of its steps |
| EmailListener.Service.Run | email/listener.go:78-111 | The goroutine: session after session until stopped, and gone then; from a sound state it ends in a sound one, so its cursors pass no un-offered mail |
| EmailListener.Service.Begin | email/listener.go:117-140 | Dial, select, compare with the cursor, and join a renumbered mailbox at its present |
| EmailListener.Service.Turn | email/listener.go:142-171 | Read the cursor, fetch, fan out, advance only past what was offered, idle |
| EmailListener.Post.FetchSince | email/listener.go:10-23 | What the fetch is taken to return: a complete snapshot above the UID, or an error |
| TaskManager.ResolvedAllAgrees | tasks/manager.go:446-458 | Settling all kinds at once agrees with settling each one, kinds nobody names included |
| TaskManager.GroupEditsReachExactlyHeirs | tasks/manager.go:432-458 | Editing a task group's resource groups changes how a member is wired for a kind exactly when the edit changes what that kind inherits and the member leaves it unset; a field set to none is set |
| TaskManager.ResolveAll | tasks/manager.go:432-458 | The loops wire every kind to what the task sets, even to none, else to the task group's group and no pin, and wire nothing for a kind neither names |
| TaskManager.ReassignedTaskLeases | tasks/manager.go:460-505 | The placement a reassignment passes to the leasing manager is what the next recovery wires while the group is unedited, and after it no pass under that placement meets a pin conflict until the task locks again |
| TaskManager.ReassignedTaskFits | tasks/manager.go:460-505 | And everything the task is granted until it locks again is its new pin, or is in its new group |
| TaskManager.OtherKindsStand | tasks/manager.go:490-492 | Reassigning one kind leaves every other kind's resolved placement as it was |
| TaskManager.RunsEvolve | tasks/engine.go:265-290 | Whatever an engine does by itself never seals or unseals it, and a sealed engine that is not live never starts |
| TaskManager.Manager.DeleteGroup | tasks/manager.go:647-708 | Anything that goes wrong before the first deletion, a live member or one still holding a lock, leaves every record, the registry and the group whole and no member newly sealed; on success every member's row and handle is gone, every kind's lock freed, and no member could start in between; a failed delete leaves exactly the members before it gone and the rest sealed |
| TaskManager.Manager.Sweep | tasks/manager.go:669-700 | The seal, release and delete phases over the members: abandoned only for a member that is live or one that still holds a lock, with nothing deleted and nothing newly sealed |
| TaskManager.Manager.SealAll | tasks/manager.go:672-683 | Stops only at a member that is live; what it sealed is sealed and not live |
| TaskManager.Manager.ReleaseAll | tasks/manager.go:688-693 | Frees every member of every kind's lock, or names a member that still holds one |
| TaskManager.Manager.DropAll | tasks/manager.go:695-700 | Removes each member from the registry before the store, in order, up to the first failure |
| TaskManager.Manager.DeleteTask | tasks/manager.go:507-534 | Refuses exactly a live task; a lock that stays reopens it, and does stay; otherwise it is dropped sealed and freed |
| TaskManager.Manager.ReleaseTask | tasks/manager.go:540-551 | Every kind is unlocked even when one fails; it succeeds exactly when all do |
| TaskManager.Manager.Free | tasks/manager.go:540-551 | That is, exactly when no pool holds a lock of the task any more; no other task gains one |
| TaskManager.Manager.AssignResource | tasks/manager.go:470-505 | The record first, then the stale lock of that kind under the placement as resolved: a lock that stays under a pin is on the pinned resource; other kinds and other pools untouched |
| TaskManager.Manager.RecoverTask | tasks/manager.go:338-368 | The live handle if there is one, else a new unstarted one over the stored row, wired as every kind resolves |
| TaskManager.Manager.AssignThenRecover | tasks/manager.go:460-505 | A task repointed and then recovered is wired for that kind with the group and resource as set, even to none, the task group's where the group was left unset and no pin where the resource was; every other kind as before |
| TaskManager.Manager.RecoverAll | tasks/manager.go:370-412 | Every stored task gets such a handle; live ones keep theirs; a row that cannot be rehydrated stops the sweep |
| Migrations.EachAppliedOnce | sqlite/migrate.go:34-54 | Over any interleaving of sweeps, failed ones included, by any stores and releases whose lists grow by appending, every ledger stays exactly 1 to n under the right names and exactly the first n statements have been executed, once each, in order |
| Migrations.ThroughAPrefix | sqlite/migrate.go:55-87 | Upgrading through an earlier release's list is upgrading directly |
| Migrations.SweepReachesTheList | sqlite/migrate.go:77-86 | A sweep that goes through leaves its store exactly at its list and every other store alone; repeating it changes nothing |
| Migrations.PreLedgerUntouched | sqlite/migrate.go:55-76 | A file from before the ledger is left alone by every sequence of sweeps |
| Migrations.UnsoundUntouched | sqlite/migrate.go:55-76 | So is a store whose history has a gap or is ahead of every list it is swept with |
| Migrations.Database.Migrate | sqlite/migrate.go:55-87 | Commits exactly the missing steps or changes nothing; refuses a nameless store, a pre-ledger file, a history with a gap, and one newer than the list, each for what it is |
| Migrations.Database.CountApplied | sqlite/migrate.go:120-142 | Answers exactly for histories 1 to n with none missing |
| Migrations.Database.Apply | sqlite/migrate.go:145-153 | A step and its row, inside the transaction |
| Migrations.RowsInStep | sqlite/migrate.go:127-141 | The ordered rows of versions 1 to n are in step with a counter from 1 |
| Migrations.UpgradeSparesOthers | sqlite/migrate.go:18-32 | A store's steps leave every other store's rows and statements alone |

## Left out

- Timestamps, error texts, the sorting of reported ids, drop and error callbacks beyond counting drops.
- `Held`, `Locked`, `Get`, `List`, `CheckAssignment` and the other reads: each copies out what one map or row holds, and no property here turns on them.
- Strategies with shared mutable state: a group's strategy is a value, and its answers are arbitrary; the wrap-around of the round-robin cursor at the width of Go's int.
- The Bayesian strategy, `ExpBackoff` and `Timeout`: floating point, randomness and wall-clock time.
- JSON and snapshots that fail to encode or decode: encoding is the identity here, and a snapshot that cannot be taken counts as a write that failed.
- A workflow whose constructor or input check fails: the run of such a task never begins.
- LeasingManager.Manager.Acquire: the wait on the condition variable is a loop with an arbitrary bound on how often it is woken, since a loop must be shown to end; a caller who outlasts the bound is reported as still waiting.
- RunEngine.Runner.Run: how long the process lives is an arbitrary number of turns, after which it counts as crashed; control calls come between critical sections, never inside one.
- EmailListener.Service.Run: likewise; calls on other inboxes do not appear among the interfering steps, since the manager's methods leave this inbox's state alone.
- TaskManager.Manager.DeleteGroup: between its steps engines move on as `Evolves` says and pools only unlock; that a task without a live run takes no lock is assumed, since only runs lease; the assumption also covers a killed run whose handler is still unwinding, which counts as not live. Members left behind by a failed delete stay sealed, as in the code.
- Two live engines for one task id: a handle older than the record is modelled only to show what goes wrong.
- Mid-state checkpoints from other goroutines than the handler's own.
- Creating tasks and task groups, registering workflows, validating kinds: single checks and one write each.
- SQL text, SQLite itself, row scanning and the repositories: a database is its ledger and the statements executed per store, which are taken to touch that store's tables only.
- IMAP, TLS, OAuth and MIME in `email/vendors.go`: a mailbox is what `Post` says of it.
- `comms`, `payments`, `accounts`, `tasks/typed.go`, the command line, scaffolding and templates: thinner copies of the same ideas, or none of them.
