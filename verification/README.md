# Instance control plane: a verified model

The control plane keeps two durable state machines on one transactional store. This
project models both, the processes that run them, and the supervisor that starts the
services they manage, and proves what holds of them over whole runs: crashes between any
two transactions, busy stores, lost locks, replays, stale executors and failing backends
included.

**Store.** A transaction commits entirely or does nothing (`Durable.Store`). In the
specifications every `with store.transaction()` block is one function named `...Tx`: from
the documents before, the arguments and what the environment answers, to the documents
after and a value, or to the error that rolled everything back.

**Lifecycle authority** (`Lifecycle*`). Clients create, approve, start, stop, transfer and
recover instances; `tick` works off one operation at a time under a file lock, calls a
backend, verifies, and commits, compensates or quarantines. The simulation backend is a
small durable resource. The production backend issues a one-use lease to a helper process
that inherits the lock, writes its intent to a journal, commands the daemon, and reports.

**Deployment controller and launch leases** (`Controller*`, `LaunchAuthority`).
Administrators register, plan, approve and begin; a process holding a fenced token
deploys, verifies and commits, or restores; recovery hands the operation to a new executor
under a higher fence. Launch grants and leases are checked against the same documents.

**Foreground supervisor** (`Foreground*`). One child, signals forwarded under a guard, one
escalation to SIGKILL. What it does is a function of its schedule (signals, guards, the
child, everything an action may raise); the class is proved equal to it.

How the parts fit together:

- `...Model` holds the documents and the transactions; `...Machine` interleaves processes
  between transactions. A step label carries everything the environment decides (clock
  readings, identifiers, busy stores, faults, observations, daemon replies, crashes), and
  a run is any sequence of labels; a label that cannot happen changes nothing. What a
  process remembers between transactions is its program counter, and a crash drops it.
- `...Calls`, `...Attempts` and `...Outcomes` say exactly how one call, one tick and one
  execution end, `...Requests` and `...Permits` exactly when a request is accepted and what it
  then does, in terms a caller could check.
- `...Invariants`, `...Frames`, `...Safety`, `...History`, `...Agreement`, `...Fences`,
  `...Leases`, `...Drift`, `...Quarantine`, `...Progress`, `...Smooth`, `...Provenance`,
  `...Endings` and `...Admission` prove what every step keeps, one lemma per step; the
  theorems below follow by induction over runs. `Authorities` runs both machines on one
  registration table.
- The classes (`Admission`, `SimulationBackend`, `ProductionExecutor`, `ProductionBackend`,
  `Worker`, `Controller`, `Entry`, `LaunchGrantAuthority`, `HostAdapter`, `Supervisor`) are
  the code as it runs, changing a store's draft, a daemon, a host or a queue step by step.
  Each transaction is proved equal to its `...Tx` function, so what the theorems say of those
  functions holds of the code; `tick`, `execute`, `recover` and `run_foreground` are proved
  against what they promise as a whole.

Idealisations: a digest is injective (`Schema.Digest` wraps its content); nonces, uuids and
process identities are fresh; there is one clock; a `checkpoint` is a place to crash. A
deployment happens inside the transaction that authorised it, because the store stays
locked through it; it may take or not take, and raise either way.

What the code does where its prose says otherwise:

- The supervisor's documentation says that no signal is sent after the guard failed. The
  code asks the guard again, and may kill, when something breaks into the look at the child
  that follows a refusal, and whenever the guard raises something that is not an
  `Exception`. `ForegroundSilence.SignalAfterRefusalExactly` says of every schedule, in both
  directions, when a signal follows; `Foreground.RefusedThenKilled` runs the supervisor on
  one schedule of each kind; on undisturbed schedules (`ForegroundSilence.CalmRuns`) no
  signal ever does.
- A controller commit checks no deadline, only the verification before it does; `failed`
  leaves the generation as it was; `recover` leaves the status as it was.
- A rollback restores the baseline's state and specification, not its process identity.

## Model

| member | source | states |
|---|---|---|
| Durable.Store.Begin | scripts/instance_control/store.py:49-68 | a transaction either starts on the committed documents or, when the store is busy, nothing happens |
| Durable.Store.Commit | scripts/instance_control/store.py:49-68 | leaving the block normally makes exactly the draft durable |
| Durable.Store.Rollback | scripts/instance_control/store.py:49-68 | an exception leaves the committed documents as they were |
| LifecycleTheorems.CrashSafeAgreement | scripts/instance_control/lifecycle.py:422-558 | over every run without a foreign writer, an approved instance with no operation records exactly what its backend shows, every committed operation ended with its resource in the desired state (at its completion, or already on admission) and every rolled back one in its baseline state |
| LifecycleEndings.RunKeepsClosed | scripts/instance_control/lifecycle.py:340-377 | over every run each operation that shows committed or rolled back has a record of ending so, the ones that were done when they came in included |
| LifecycleAgreement.RunKeepsFaithful | scripts/instance_control/lifecycle.py:422-526 | the full relation between rows, processes, journal and resources that carries the agreement through every step of every run |
| LifecycleQuarantine.UnknownOutcomeIsPermanent | scripts/instance_control/production_backend.py:276-292 | once the journal says intent and its writer is gone, no continuation (ticks, recover requests, leases, restarts, foreign writes) issues another command for the instance, rewrites the record, or lets the instance rest |
| LifecycleTheorems.LostExecutorQuarantinesForever | scripts/instance_control/production_backend.py:317-346 | an executor that dies, is killed or fails after its intent leaves exactly that situation, for good |
| LifecycleTheorems.OneExecutorAtATime | scripts/instance_control/production_backend.py:160-201 | at most one executor exists at any time, its parent is waiting, has given up or is gone, the lock is held, and the journal record is the executor's own |
| LifecycleTheorems.SettleReplacesOwnRecord | scripts/instance_control/production_backend.py:348-352 | a settled write replaces the executor's own intent and no other record |
| LifecycleTheorems.ReportReplacesOwnRecord | scripts/instance_control/production_backend.py:357-372 | a verified write replaces the executor's own settled record, never a live intent |
| LifecycleTheorems.EveryCommandIsJustified | scripts/instance_control/production_backend.py:264-317 | a daemon command is issued only from the operation's baseline (ignoring health) or, for a restore, from that operation's last settled observation, and never from a state that already matches |
| LifecycleTheorems.OneForwardCommand | scripts/instance_control/production_backend.py:234-356 | at most one forward command per operation over any run |
| LifecycleTheorems.NoCommandOutlivesItsParent | scripts/instance_control/production_backend.py:186-201 | when a parent reports that the executor is still active, that lease's command was cut off more than five seconds earlier |
| LifecycleHistory.RunKeepsAccounted | scripts/instance_control/production_backend.py:132-146 | leases, claims, journal, commands and their times stay accounted for over every run |
| LifecycleTheorems.RuntimeIsNeverForeign | scripts/instance_control/production_backend.py:284-299 | without a foreign writer an executor's inspection is never refused as somebody else's runtime |
| LifecycleTheorems.SimulationAccepts | scripts/instance_control/lifecycle_backend.py:58-76 | without a foreign writer the simulation never refuses a worker that is about to call it |
| LifecycleTheorems.NormalReturnMeansTarget | scripts/instance_control/lifecycle_backend.py:12-28 | what a backend call hands back to `tick` is the resource as it is, in the desired or the baseline state, for either backend |
| LifecycleTheorems.InstancesAndOperationsAgree | scripts/instance_control/lifecycle.py:317-399 | an operation that is not committed or rolled back is its instance's current one, and instance state and operation phase determine each other |
| LifecycleInvariants.RunKeepsSafe | scripts/instance_control/lifecycle.py:422-558 | coupling, journal, leases and the position of every process stay consistent over every run |
| LifecycleTheorems.ConflictsAreUnreachable | scripts/instance_control/lifecycle.py:440-442 | under the worker lock neither `operation_conflict` in `tick` nor `fence_lost` in `_finish` can happen |
| LifecycleTheorems.OperationsAreConserved | scripts/instance_control/lifecycle.py:528-558 | accepted operations equal pending ones plus completed ones, over every run |
| LifecycleProgress.TickAdvances | scripts/instance_control/lifecycle.py:458-526 | every step of a worker shortens its tick, and a tick that no crash or busy store interrupts ends by completing exactly its own operation |
| LifecycleProgress.AdmitJoins | scripts/instance_control/lifecycle.py:340-382 | an accepted start, stop or recover adds exactly one operation to the queue, everything else leaves the queue alone |
| LifecycleAdmission.ReplayIsStable | scripts/instance_control/lifecycle.py:227-237 | an accepted request sent again at any later time returns the first response and changes nothing, or is refused exactly for lost access |
| LifecycleAdmission.ReusedKeyIsRefused | scripts/instance_control/lifecycle.py:227-237 | a different request under a used key never changes anything but the audit log |
| LifecycleAdmission.RunKeepsSaved | scripts/instance_control/lifecycle.py:384-391 | a durable response is never rewritten |
| LifecycleAdmission.OneMutationPerGeneration | scripts/instance_control/lifecycle.py:265-271 | at most one accepted mutation ever quotes a given generation of an instance, and at most one creates it |
| LifecycleAdmission.ClaimAllSucceeds | scripts/instance_control/lifecycle.py:286-302 | the claim loop succeeds exactly when every resource is free and none is named twice |
| LifecycleAdmission.ClaimAllOwns | scripts/instance_control/lifecycle.py:286-302 | a successful claim loop adds exactly the named resources, for this instance, and touches no other claim |
| LifecycleAdmission.ResourcesAreExclusive | scripts/instance_control/lifecycle.py:274-313 | over every run approved instances own pairwise disjoint resources, each every resource of the profile it was requested under, and nobody else owns any |
| LifecycleAdmission.RunKeepsAdmitting | scripts/instance_control/lifecycle.py:239-391 | saved requests, claims and authority stay consistent over every run |
| LifecycleAdmission.RefusalLeavesNoClaim | scripts/instance_control/lifecycle.py:151-169 | a refusal, wherever in the request it happens, leaves at most one audit event |
| LifecycleAdmission.OneAuthority | scripts/instance_control/controller.py:64-76 | under any interleaving of enrolments and requests in the lifecycle's own runs, a registered id has no lifecycle instance beyond requested or rejected |
| Authorities.NeverTwoAuthorities | scripts/instance_control/controller.py:64-76 | over every run of both authorities on one store, each looking into the other's table in its own transaction, an instance the controller has is at most requested or rejected for the lifecycle authority |
| Authorities.RegistrationFindsNoInstance | scripts/instance_control/controller.py:68-70 | at the step that registers an instance the lifecycle authority has none of that name, in any state |
| LifecycleRequests.AcceptedExactly | scripts/instance_control/lifecycle.py:226-379 | a new request is accepted if and only if its user has access, quotes the generation, is an administrator where one is required, and the instance, its resources and its backend are as the action demands |
| LifecycleRequests.AcceptedDoes | scripts/instance_control/lifecycle.py:239-399 | what an accepted request leaves and answers, by its action: a start an operation of this user on this instance towards running, a stop one towards stopped, a transfer the new owner, an approval the claimed resources, a recover the same operation reopened |
| LifecycleRequests.ClientsGetWhatTheyAskFor | scripts/instance_control/lifecycle.py:355-382 | over every run the operation an accepted start or stop was answered with is that user's, on that instance, towards the state asked for, and when it shows committed the resource was in that state as it ended |
| LifecycleAdmissionService.Admission.Claim | scripts/instance_control/lifecycle.py:286-302 | the loop over the profile's resources claims what `ClaimAll` specifies, or reports a conflict |
| LifecycleAdmissionService.Admission.Approve | scripts/instance_control/lifecycle.py:274-318 | the code of an approval does what its specification says, claims and refusals included |
| LifecycleAdmissionService.Admission.Recover | scripts/instance_control/lifecycle.py:330-339 | the code of a recover request reopens exactly the instance's own operation |
| LifecycleAdmissionService.Admission.StartOrStop | scripts/instance_control/lifecycle.py:340-377 | the code of start and stop queues one operation from the observed baseline, or records one that is already done |
| LifecycleAdmissionService.Admission.Mutate | scripts/instance_control/lifecycle.py:262-379 | access, generation and administrator checks precede every action, which bumps the generation once |
| LifecycleAdmissionService.Admission.Save | scripts/instance_control/lifecycle.py:383-399 | row, durable response and audit event are written together |
| LifecycleAdmissionService.Admission.Admit | scripts/instance_control/lifecycle.py:226-399 | the code of a mutating request does to the open transaction what `AdmitTx` specifies, for every action and every refusal |
| LifecycleAdmissionService.Admission.Dispatch | scripts/instance_control/lifecycle.py:151-169 | a new request on a free store is accepted exactly when acceptable and then answered and done as asked; accepted, it commits everything, refused, nothing but its audit event, and a busy store nothing |
| LifecycleAdmissionService.Admission.Resend | scripts/instance_control/lifecycle.py:227-237 | a client that sends its accepted request again gets the same answer, and nothing happens a second time |
| LifecycleWorker.Worker.FirstOpen | scripts/instance_control/lifecycle.py:425-438 | the scan finds the smallest non-terminal operation, or that there is none |
| LifecycleWorker.Worker.Reserve | scripts/instance_control/lifecycle.py:424-456 | the reservation picks the first pending operation, under a new fence, or finds the queue empty |
| LifecycleWorker.Worker.Invoke | scripts/instance_control/lifecycle.py:459-472 | a backend call that returns hands back the resource as it is, in the target state, and touches no document but its own journal |
| LifecycleWorker.Worker.Observe | scripts/instance_control/lifecycle.py:474-476 | the second look sees the resource as it is and changes nothing but a daemon's health |
| LifecycleWorker.Worker.Try | scripts/instance_control/lifecycle.py:459-491 | an attempt that finishes leaves the instance at rest, recorded as its resource is, in the state asked for |
| LifecycleWorker.Worker.Compensate | scripts/instance_control/lifecycle.py:495-508 | the compensation intent is durable before the backend is asked to restore |
| LifecycleWorker.Worker.Finish | scripts/instance_control/lifecycle.py:528-558 | the last transaction moves operation and instance together, under fence and operation checks |
| LifecycleWorker.Worker.Quarantine | scripts/instance_control/lifecycle.py:493-525 | what cannot be compensated ends as recovery_required, and leaves the queue |
| LifecycleWorker.Worker.Work | scripts/instance_control/lifecycle.py:458-526 | one try, and on a failure that is not in progress one compensating try and else the quarantine, exactly as its specification says of the scene it finds |
| LifecycleWorker.Worker.Serve | scripts/instance_control/lifecycle.py:458-526 | the ending is forced by what was there and what happened: a first attempt that succeeds settles the operation in its target, one that failed and can be undone settles it in its baseline, and it is quarantined only while its helper may be running or after two failures |
| LifecycleAttempts.ReserveExactly | scripts/instance_control/lifecycle.py:440-456 | a reservation goes forward if and only if the operation is queued and the authority enabled, under a fence one higher |
| LifecycleAttempts.TryExactly | scripts/instance_control/lifecycle.py:459-491 | an attempt finishes if and only if the pinned profile and the backend qualify, the backend delivers, a second look finds the same, and the store is free; it is abandoned if and only if its helper may still be running |
| LifecycleAttempts.AttemptsExactly | scripts/instance_control/lifecycle.py:458-526 | how a tick ends, for every scene and every condition: committed, rolled back, quarantined or interrupted |
| LifecycleAttempts.UndisturbedTickCommits | scripts/instance_control/lifecycle.py:459-491 | a forward tick of an untaken resource that nothing disturbs commits |
| LifecycleAttempts.FailedAttemptIsUndone | scripts/instance_control/lifecycle.py:494-523 | a first attempt that failed, however it did, is undone by an undisturbed second one, unless its outcome is unknown |
| LifecycleAttempts.QuarantinedExactly | scripts/instance_control/lifecycle.py:492-525 | an operation is quarantined if and only if its helper may still be running or both attempts failed |
| LifecycleSmooth.UndisturbedTicksSucceed | scripts/instance_control/lifecycle.py:422-526 | in the interleaved machine, from any reachable world at rest with no unknown outcome and whatever clients do meanwhile: without faults, refusals, kills, busy stores, missed deadlines and foreign writes no worker fails and every completed operation ended in the direction it was worked in |
| LifecycleWorker.Worker.Tick | scripts/instance_control/lifecycle.py:422-526 | a tick is idle exactly when nothing is pending; otherwise it works off exactly the first pending operation, forward exactly when it is queued and the authority enabled, and ends as its conditions force it to, unless a busy store leaves it pending |
| LifecycleBackends.SimulationBackend.Change | scripts/instance_control/lifecycle_backend.py:58-99 | the simulation honours the backend contract, faults after its commit included |
| LifecycleBackends.SimulationRestoreIsIdempotent | scripts/instance_control/lifecycle_backend.py:66-87 | a restore that ran once runs again with the same outcome, also under a later fence |
| LifecycleBackends.ProductionBackend.Mint | scripts/instance_control/production_backend.py:115-158 | a lease is issued only to the current holder of the fence, in the direction the operation is going |
| LifecycleBackends.ProductionBackend.Run | scripts/instance_control/production_backend.py:203-223 | the production backend honours the same contract, gives at most one command and none when the state matches, an unknown outcome makes it fail without touching anything, and its result is what its specification makes of the documents, the runtime and the environment |
| LifecycleCalls.RunExactly | scripts/instance_control/production_backend.py:203-217 | a call gives a result if and only if lease, claim, journal, command, verification and read-back all go through, named one by one, over a known outcome and an admissible runtime; it is in progress if and only if the parent gave up on a helper it had started; and what it leaves on record follows from how far it got |
| LifecycleCalls.WorkExactly | scripts/instance_control/production_backend.py:263-372 | the same for the helper alone: a verified record if and only if nothing on the way failed, an intent if and only if the command was needed and not settled |
| LifecycleBackends.ProductionBackend.ReadBack | scripts/instance_control/production_backend.py:206-217 | only a verified record of this operation, direction and fence counts as a result |
| LifecycleBackends.ProductionExecutor.Claim | scripts/instance_control/production_backend.py:236-262 | a lease is consumed once, unexpired, by the holder of its fence |
| LifecycleBackends.ProductionExecutor.Journal | scripts/instance_control/production_backend.py:269-330 | the intent is recorded only over a known outcome and from an admissible runtime; a state that matches is settled at once |
| LifecycleBackends.ProductionExecutor.Clear | scripts/instance_control/production_backend.py:333-339 | the last check before a command writes nothing and passes only under the lease's fence and time |
| LifecycleBackends.ProductionExecutor.Act | scripts/instance_control/production_backend.py:333-352 | from intent to settled, or the intent stays on record as it was |
| LifecycleBackends.ProductionExecutor.Confirm | scripts/instance_control/production_backend.py:353-372 | verified only what still runs and is in the desired state, or the settled record stays |
| LifecycleBackends.ProductionExecutor.Work | scripts/instance_control/production_backend.py:263-372 | success means a verified record of what runs; a foreign runtime or an unknown outcome is left untouched; no command when the state matches |
| LifecycleBackends.ProductionExecutor.Perform | scripts/instance_control/production_backend.py:331-372 | from the journal record to the end: no command for a record settled at once, and a verified record of what runs on success |
| LifecycleBackends.ProductionExecutor.Execute | scripts/instance_control/production_backend.py:234-372 | only a claimed lease leads to any effect |
| LifecycleBackends.ProductionBackend.RestoreTwice | scripts/instance_control/production_backend.py:203-223 | a restore that follows one that returned gives the daemon no command and leaves the runtime alone |
| ControllerAgreement.ControllerAgreesWithHost | scripts/instance_control/controller.py:189-345 | over every run in which only deployments change the runtime, a ready instance is recorded exactly as it runs, a changing one runs its operation's baseline or candidate, and every operation in a terminal phase has the completion it ended with, on the specification that phase names |
| ControllerEndings.RunKeepsClosed | scripts/instance_control/controller.py:303-323 | over every run, foreign writers included, each operation that shows committed, rolled back or failed has a completion of exactly that operation in that phase |
| ControllerAgreement.RunKeepsFaithful | scripts/instance_control/controller.py:390-479 | the relation behind it survives crashes, failed deployments, rollbacks and recoveries |
| ControllerSafety.RunKeepsSafe | scripts/instance_control/controller.py:189-479 | over every run the documents stay sound, fences and generations never fall, and terminal operations never change |
| ControllerSmooth.UndisturbedProcessCommits | scripts/instance_control/controller.py:323-333 | in the machine, the six steps of an undisturbed execution, in time and on the service as planned, deploy once and complete the operation as committed on the candidate |
| ControllerSmooth.UndisturbedProcessRestores | scripts/instance_control/controller.py:390-413 | the six steps of an undisturbed rollback of a service that is not as planned restore once and complete the operation as rolled back on the baseline |
| ControllerFences.FenceHasOneOwner | scripts/instance_control/controller.py:213-234 | over a whole run each fence of an instance is handed to one executor of one operation |
| ControllerFences.ReplacedTokenIsPowerless | scripts/instance_control/controller.py:236-242 | after an operation has moved to a higher fence, no step under an older token ever changes store, runtimes or history |
| ControllerFences.UnownedStepIsInert | scripts/instance_control/controller.py:236-242 | no step of a process whose token owns nothing writes the store or reaches the backend |
| ControllerFences.RecoveryReplacesEveryToken | scripts/instance_control/controller.py:471-477 | a recovery that commits is above every fence its operation was ever given |
| ControllerFences.TerminalIsAbsorbing | scripts/instance_control/controller.py:241 | a terminal operation never changes again, and no token owns it |
| ControllerFences.OneForwardDeployment | scripts/instance_control/controller.py:244-281 | each operation is deployed forward at most once over a run, however many processes execute its token |
| ControllerFences.FirstIn | scripts/instance_control/controller.py:244-253 | of all processes on one token the first through "applying" is the only one |
| ControllerDrift.ModelAndResourcesNeverDrift | scripts/instance_control/schema.py:194-196 | every specification ever recorded as live or deployed has the model and resources of the registered baseline, and every accepted rollback plan targets something the instance ran |
| ControllerDrift.PlansAreOneShot | scripts/instance_control/controller.py:141-234 | a plan reserves at most one operation, never after a cancellation; consumed approvals and operations are equal in number; one recovery approval is consumed per fence |
| ControllerInvariants.ConsumeOne | scripts/instance_control/controller.py:207-229 | beginning consumes exactly one more approval |
| ControllerPermits.RegisterExactly | scripts/instance_control/controller.py:57-76 | a registration is accepted if and only if the service is qualified and seen to run the baseline and neither authority has the instance |
| ControllerPermits.PlanExactly | scripts/instance_control/controller.py:102-139 | a plan is made if and only if the budgets are in range, the action is allowed, the service rests and runs exactly as recorded, and the candidate keeps the shape and fits the action |
| ControllerPermits.ApproveExactly | scripts/instance_control/controller.py:141-159 | a plan is approved if and only if it is fresh, not cancelled, and its instance has not moved |
| ControllerPermits.CancelExactly | scripts/instance_control/controller.py:161-187 | a plan is cancelled if and only if it has not been begun |
| ControllerPermits.BeginExactly | scripts/instance_control/controller.py:189-234 | a plan is begun if and only if an unused, fresh approval of exactly this plan meets an instance and a service that are still as planned; both deadlines run from now, each by its own budget |
| ControllerPermits.ApproveRecoveryExactly | scripts/instance_control/controller.py:424-445 | a recovery is approved if and only if the operation is unfinished and inside its recovery window; the approval is bound to operation, fence and generation and ends with that window |
| ControllerPermits.RecoverExactly | scripts/instance_control/controller.py:447-479 | a recovery is accepted if and only if an unused, fresh approval of this operation under the fence it still has meets a quiescent old executor inside the recovery window |
| ControllerPermits.MintExactly | scripts/instance_control/host_authority.py:114-135 | a grant is issued if and only if the token holds the operation and its instance, and to an allowed owner |
| ControllerPermits.ClaimExactly | scripts/instance_control/host_authority.py:137-169 | a grant is claimed if and only if it is unused and fresh, the peer is its owner, the command is its command, and its operation is still held as it was |
| ControllerPermits.GuardExactly | scripts/instance_control/host_authority.py:177-225 | a guard opens, and a lease is retired, if and only if the lease is the peer's own, not retired, and passes the fence test |
| ControllerProvenance.EveryLeaseWasGranted | scripts/instance_control/host_authority.py:137-169 | over every run each lease was claimed with a grant, now spent, that was issued to the lease's own user for exactly its command, operation, fence and executor |
| ControllerProvenance.DeadlinesFollowThePlan | scripts/instance_control/controller.py:221-230 | over every run an operation's two deadlines lie exactly as far apart as its plan's budgets, the recovery deadline last |
| ControllerLeases.FenceTestMeans | scripts/instance_control/host_authority.py:193-202 | the authority's fence test holds exactly while the lease's operation still has its fence and is changing or has committed forward |
| ControllerLeases.LeasePassesExactlyWhileGood | scripts/instance_control/host_authority.py:177-203 | so it does for every claimed lease in every reachable store |
| ControllerLeases.RevocationIsPermanent | scripts/instance_control/host_authority.py:193-202 | a lease that once failed the test never passes again, over all controller and authority steps |
| ControllerLeases.OnlyTheForwardCommitKeepsIt | scripts/instance_control/controller.py:303-321 | a commit of the lease's operation keeps the lease exactly when it is the forward one |
| ControllerLeases.UntouchedBaselineEndsIt | scripts/instance_control/controller.py:396-409 | a failed operation ends its leases |
| ControllerLeases.RecoveryEndsIt | scripts/instance_control/controller.py:471-477 | a recovery ends the leases of the executor it replaces |
| ControllerLeases.LaterOperationEndsIt | scripts/instance_control/controller.py:215-226 | a later operation on the instance ends the leases of the earlier one |
| ControllerLeases.ClaimedLeasePasses | scripts/instance_control/host_authority.py:137-169 | a lease passes the guard as soon as it is claimed |
| ControllerLeases.GrantsAreOneUse | scripts/instance_control/host_authority.py:137-169 | over a run there are as many leases as consumed grants |
| ControllerLeases.RefusedGuardStaysRefused | scripts/instance_control/host_authority.py:177-225 | a peer once refused its lease, revoked or retired, is refused at every later time |
| ControllerService.Controller.Register | scripts/instance_control/controller.py:41-76 | an enrolment follows the checks of the source; an id the lifecycle authority has, or a service that cannot be inspected, is refused without effect |
| ControllerService.Controller.Plan | scripts/instance_control/controller.py:102-139 | the code of a plan does what `PlanTx` specifies |
| ControllerService.Controller.Approve | scripts/instance_control/controller.py:141-159 | the code of an approval does what `ApproveTx` specifies |
| ControllerService.Controller.Reserved | scripts/instance_control/controller.py:178-184 | the scan over operations finds one of this plan if and only if there is one |
| ControllerService.Controller.CancelPlan | scripts/instance_control/controller.py:161-187 | the code of a cancellation does what `CancelTx` specifies |
| ControllerService.Controller.Begin | scripts/instance_control/controller.py:189-234 | the code of a reservation does what `BeginTx` specifies, observation included |
| ControllerService.Controller.Enter | scripts/instance_control/controller.py:244-253 | a phase is entered only by the token's owner and only from the phases that may precede it |
| ControllerService.Controller.Effect | scripts/instance_control/controller.py:255-281 | a deployment is asked for only after every check of the same transaction, and the store does not change |
| ControllerService.Controller.Verify | scripts/instance_control/controller.py:283-301 | a verification accepts only the target run by new processes, before the deadline, and records it |
| ControllerService.Controller.Commit | scripts/instance_control/controller.py:303-321 | the code of a commit, forward or back, does what `CommitTx` specifies |
| ControllerService.Controller.Check | scripts/instance_control/controller.py:392-409 | the first transaction of a rollback ends the operation exactly when the baseline was never touched |
| ControllerService.Controller.GiveUp | scripts/instance_control/controller.py:414-421 | a rollback that fails leaves the operation current and its instance in recovery_required |
| ControllerService.Controller.Execute | scripts/instance_control/controller.py:323-333 | one execution deploys forward at most once and back at most once, and how it ends, what then runs and what was asked for is determined by the operation, the service and the course of events; what it returns is what the host runs and the store records |
| ControllerService.Controller.Rollback | scripts/instance_control/controller.py:390-422 | a rollback ends unchanged, rolled back, failed or interrupted if and only if its course says so, having asked for a restore exactly if it could |
| ControllerService.Controller.Examine | scripts/instance_control/controller.py:391-409 | the check ends the operation exactly on the untouched baseline, and finds something to restore exactly when the service is not as planned or not owned |
| ControllerOutcomes.UndisturbedExecutes | scripts/instance_control/controller.py:323-333 | an undisturbed execution of a reserved operation on the service as planned is committed: one deployment, and new processes run the candidate |
| ControllerOutcomes.UndisturbedRestores | scripts/instance_control/controller.py:390-413 | an undisturbed way back of a service that is not as planned is rolled back: one restore, and new processes run the baseline |
| ControllerOutcomes.FailedDeploymentIsUndone | scripts/instance_control/controller.py:323-413 | a deployment that took and was not committed is undone by an undisturbed way back |
| ControllerOutcomes.RollbackFailsExactly | scripts/instance_control/controller.py:390-422 | the rollback of a service that was touched fails if and only if one of six named causes holds |
| ControllerService.Controller.ApproveRecovery | scripts/instance_control/controller.py:424-445 | the code of a recovery approval does what `ApproveRecoveryTx` specifies |
| ControllerService.Controller.TakeOver | scripts/instance_control/controller.py:447-478 | the code of a recovery does what `RecoverTx` specifies |
| ControllerService.Controller.Recover | scripts/instance_control/controller.py:447-479 | a refused recovery changes nothing; an accepted one rolls back under its own new token, as its course determines |
| ControllerActions.UsedPlanIsRefused | scripts/instance_control/controller.py:213-215 | a plan that has reserved an operation is never begun again, whatever the approval |
| ControllerActions.Entry.Act | scripts/instance_control/transport.py:284-291 | a deployment request is performed if and only if its unused plan can be begun with this approval on the service as it runs, under exactly that plan, and otherwise refused without effect; what then runs, was asked for and is returned follows its course |
| ControllerActions.Entry.ActAgain | scripts/instance_control/transport.py:284-291 | a later request on the same plan, under any approval, is refused without effect |
| LaunchAuthority.LaunchGrantAuthority.Mint | scripts/instance_control/host_authority.py:114-135 | the code of a grant does what `MintTx` specifies |
| LaunchAuthority.LaunchGrantAuthority.Claim | scripts/instance_control/host_authority.py:137-169 | the code of a claim does what `ClaimTx` specifies |
| LaunchAuthority.LaunchGrantAuthority.Enter | scripts/instance_control/host_authority.py:177-203 | a guard opens exactly for the peer's own lease that passes the fence test, and the store stays locked while it is open |
| LaunchAuthority.LaunchGrantAuthority.Retire | scripts/instance_control/host_authority.py:205-225 | the code of a retirement does what `RetireTx` specifies |
| LaunchAuthority.HostAdapter.Guarded | scripts/instance_control/host_broker.py:243-245 | a spawn or signal happens exactly when the guard opens, under the documents it tested |
| LaunchAuthority.HostAdapter.Execute | scripts/instance_control/host_broker.py:376-390 | with other processes at work between its transactions, nothing is done without a claim, each step under the documents of its own moment and the claimed lease passing them, none from the first refusal on, and a finished action leaves neither grant nor lease to anybody |
| LaunchAuthority.HostAdapter.Perform | scripts/instance_control/host_broker.py:376-390 | exactly the steps before the first refused one are made |
| ForegroundRuns.EveryRun | scripts/instance_control/foreground.py:62-178 | over every schedule: signals are handled in queue order and at most the last one taken is lost, SIGKILL escalates at most once and only after the grace period, the `try` block is over within the grace period, the wait for the kill and two sleeps of a handled TERM or INT and the whole call exactly the handler's wait later, and the result tells the truth about the child and its reason: only one that is alive, or that somebody else took, is reported unreaped |
| ForegroundRuns.WatchKeeps | scripts/instance_control/foreground.py:143-165 | what the loop remembers is what it did, at every turn of every schedule |
| ForegroundRuns.ShutdownEnds | scripts/instance_control/foreground.py:143-165 | once a TERM or INT is handled, a call still going on has slept a bounded number of times |
| ForegroundChild.ChildTold | scripts/instance_control/foreground.py:110-122 | over every schedule a reported exit code is one the child ended with, and a child is left alive only if nothing happened to it |
| ForegroundChild.SpawnRefusedExactly | scripts/instance_control/foreground.py:127-139 | a start is refused if and only if what leaves the guarded spawn is an `Exception` and there is no child |
| ForegroundChild.OwnEndIsReported | scripts/instance_control/foreground.py:143-145 | a child that ends by itself on an otherwise quiet schedule is reaped and reported with its code at the next look |
| ForegroundQueue.NothingIsDropped | scripts/instance_control/foreground.py:96-98 | over every schedule that brings no more signals than the queue holds, what was queued is exactly what arrived, and what was handled comes first in it, in order |
| ForegroundSchedule.BodyMore | scripts/instance_control/foreground.py:124-165 | what the `try` block has done depends only on the moments it has used: where a run on a shorter schedule went on, or was about to ask the guard for a signal, so does every longer one |
| ForegroundSchedule.BodyAsked | scripts/instance_control/foreground.py:146-160 | a `try` block that ended on a failed guard after its spawn had reached, at some moment of the schedule, a question for a signal, and there the guard did not hold |
| ForegroundSilence.SignalAfterRefusalExactly | scripts/instance_control/foreground.py:72-75 | over every schedule a signal follows a refused or failed guard if and only if at the spawn, or at a moment where the `try` block asks for a signal, the guard fails with an `Exception` and the look of `abandon` that follows is broken into, or it fails with anything else, and then the handler's guard opens, its look and kill go through, and nothing has happened to the child |
| ForegroundSilence.CalmRuns | scripts/instance_control/foreground.py:62-178 | on a schedule where looks, sleeps and waits work and nothing but an `Exception` is raised, no signal follows a refusal, no exception escapes, and the whole call keeps the loop's bound |
| ForegroundSilence.RefusedRun | scripts/instance_control/foreground.py:146-175 | two concrete schedules in which a guard refuses a TERM, or raises something that is not an `Exception`, and a kill follows |
| Foreground.RefusedThenKilled | scripts/instance_control/foreground.py:146-175 | a run of the supervisor on either schedule sends a signal after the failure |
| Foreground.Supervisor.Run | scripts/instance_control/foreground.py:62-178 | the call does what its specification makes of the schedule, restores the handlers on every exit, leaves a child unreaped only alive or taken by somebody else, and has the properties above |
| Foreground.Supervisor.Launch | scripts/instance_control/foreground.py:127-139 | the spawn under its guard, whatever either of them raises |
| Foreground.Supervisor.Forward | scripts/instance_control/foreground.py:103-108 | the code of `send` follows its specification: a signal only inside an open guard, only to a child alive at that moment |
| Foreground.Supervisor.Kill | scripts/instance_control/foreground.py:107-108 | the process id is the child's own at every kill |
| Foreground.Supervisor.Check | scripts/instance_control/foreground.py:100-101 | the look at the child does not reap it, and fails exactly when the child is not there |
| Foreground.Supervisor.OnSignals | scripts/instance_control/foreground.py:96-98 | arrivals are queued in order up to the capacity, and the rest is dropped |
| Foreground.Supervisor.Relays | scripts/instance_control/foreground.py:146-153 | the loop over the queue follows its specification, and the first TERM or INT starts the grace period |
| Foreground.Supervisor.Press | scripts/instance_control/foreground.py:155-164 | escalation and giving up follow their specification |
| Foreground.Supervisor.Loop | scripts/instance_control/foreground.py:143-165 | the `while True` loop ends as its specification does |
| Foreground.Supervisor.Try | scripts/instance_control/foreground.py:124-165 | so does the `try` block, every way out of it included |
| Foreground.Supervisor.Abandon | scripts/instance_control/foreground.py:114-123 | a child that has exited is reaped after all, one that is alive is left to its owner, one that is lost is not claimed, and nothing else is caught |
| Foreground.Supervisor.Rescue | scripts/instance_control/foreground.py:166-175 | the handler of everything kills under the guard or leaves the child alone, and its result says which |
## Left out

- `execute_external` and `_rollback_external`: the same phases around an effect made elsewhere; of the broker that makes it only the guarded steps between claim and retirement are modelled.
- Sockets, peer credentials, `/proc`, Docker and systemd commands and their output, host policy and artifact checks (`lifecycle_server.py`, `lifecycle_client.py`, `host_client.py`, `host_broker.py`, `canary_coordinator.py`, `production_driver.py`, `production_policy.py`): what they answer is an input of the steps that ask.
- SQLite, JSON and SHA-256: atomic transactions and injective digests.
- Validation of fields in `schema.py`, `transport.py`, `validate` and `validate_fencing_receipt`: inputs are well formed. A specification keeps its model, resources, mods and witness by name; the rest is one opaque field.
- The reading actions list, status, operation and audit, `preflight`, `dry_run` and `referenced`: they change nothing.
- Administrator and gate checks of the controller and the authority are one permitted bit per request.
- `ownership_lost` in the controller's terminal phases: no code sets it.
- LifecycleTheorems.CrashSafeAgreement: other writers of the resource are excluded, as the backends' qualification demands of the host; a daemon request may still run late, but only while its journal record says intent and no executor of the instance is about to send its own or holds a reply.
- LifecycleTheorems.NoCommandOutlivesItsParent: wall clock and monotonic clock are one clock.
- ControllerAgreement.ControllerAgreesWithHost: other writers of the runtime are excluded, as `qualify` promises; the theorems on fences, leases, plans and drift allow them.
- ControllerService.Controller.Execute: one call without other processes in between; the interleaved runs are those of `ControllerMachine`.
- ControllerActions.Entry.Act: one request without other processes between reservation and execution; the interleaved runs are those of `ControllerMachine`.
- LifecycleBackends.ProductionBackend.Run: one call with its helper run to its end; a helper that outlives its parent is in `LifecycleMachine`.
- LifecycleAdmission.OneAuthority: in the lifecycle's own machine an enrolment is one step; `Authorities` runs it together with the controller's registration.
- Foreground.Supervisor.Run: only sleeps and the last wait take time; a child that another waiter takes between the last look and `wait` counts as not exited, where CPython reports an exit code of 0; the checks on command, thread, durations and SIGCHLD before the first handler is set are taken as passed; a guard may raise on its way out but does not swallow an exception; `reap` of a child that a look has just found exited, in the loop and in `abandon`, returns at once and is neither interrupted nor timed out.
- The rest of the repository (evaluation machine, workloads, reports, benchmarks, profiles, shell scripts) is not part of this model.
