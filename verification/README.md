# Model of the automation executor's container runs

The automation executor runs commands of a *run* in containers. An executor of
a run holds two command stores (payload and support), one shared volume, and a
background routine per command that starts the container, attaches to it and
records how it ended. Clients call `Execute`, `Wait`, `AttachWait`, `Kill`,
`State`, `Prepare` and `Destroy` concurrently, over a container runtime whose
calls may fail. When the process dies, a new executor for the same run looks
the runtime over and takes back what is still there.

This project models that executor and proves what holds of it: in every
interleaving, in every whole run, for every pattern of runtime failures, and
across a crash. Three smaller parts of the repository that carry an algorithm
of their own are modelled too: the random name sampler, the select clause
builder and the archive scanner.

`dafny verify dfyconfig.toml` checks everything.

## How the model is laid out

- **Values.** `Uuids`, `Labels`, `Containers`, `CommandResults`: identifiers and
  their text, the labels and label filters, what the runtime holds (containers,
  volumes, every container id ever given out), and the result record.
- **The protocol** (`Protocol.dfy` and the files named after it). A state is the
  shared part, the owner of each mutex, and one program counter per thread. A
  step is one shared access: a lock, an unlock, a read or write under a lock, or
  one runtime call that works or fails. `Run` plays any list of labelled steps, so
  a statement about all label lists is a statement about all interleavings.
  `ProtocolInvariant` states one inductive invariant in rely-guarantee form:
  what holds of the shared part, what each program counter may assume, what each
  step promises the others, what each free mutex protects. `ProtocolSteps` proves
  that every step keeps it and `ProtocolRuns` lifts that to runs;
  `ProtocolEvents` says what happened in a run by its steps (a call, a runtime call
  that failed, what an inspection saw, what a Destroy forgot) and that the record a state
  keeps agrees with it; conditions are stated over these events. `ProtocolAttaching` reads
  off the calls of a run whether a command was attached twice. `ProtocolAnswers` says
  that what a call answers is true, and stays so. `ProtocolTheorems`,
  `ProtocolHistory`, `ProtocolSlots` and `ProtocolForgetting` hold the consequences,
  `ProtocolProgress` shows that every routine can always end, and `ProtocolWitness` holds
  the runs that show where a guarantee ends.
- **`PodmanAttach`**: `StartAttach` and `Attach` as a caller and a helper meeting
  over two unbuffered channels. Its contract is what the protocol assumes of a run.
- **Recovery.** `Recovery` gives `init` as functions of the runtime's contents
  and of an oracle that decides which calls fail and in which order listings
  come; `RecoveryTheorems` says what recovery leaves behind.
- **The objects.** `Runtime` and `Executor` hold the classes `PodmanRuntime`,
  `AttachedCommand`, `CmdSyncStore` and `ContainerExecutor`, whose methods update
  their fields in place and loop as the source does; each is proved to compute
  the recovery function, or the protocol's judgement, that specifies it, and what it
  computes is also stated directly. `Refinement` proves that the protocol's steps, when no
  other thread steps in between, do what the methods for judging, clearing and killing do.
- **From crash to recovery.** `RoundTrip` keeps an invariant over all runs whose
  callers use `Execute` only between `Prepare` and `Destroy`; `RoundTripTheorems`
  concludes exactly when recovery from such a state takes over what exists, and what it
  does otherwise; `RoundTripWitness` is a run that ends badly;
  `Lifecycle` closes the circle: what recovery returns is a state the protocol may
  start from, recovering twice changes nothing, the round trip extends to any number
  of crashes, and a run never has a second volume.
- **`RandomStrings`, `ChunkCounting`, `SelectClause`, `ArchiveScanner`**: the
  three smaller parts.

## Where the code does less than one might expect

Each of these is proved, with the exact condition or a run that shows it.

- `AttachWait` on an unfinished command made by `Execute` starts a second routine,
  because `Execute` leaves the command's once unused; then the channel is closed twice.
  It happens if and only if some `AttachWait` checked such a command and read it as
  unfinished; without such a call there is one routine and one close (`AttachedOnce`,
  `DoubledByAttachWait`, `ReattachedWhenSeenUnfinished`, `AttachingTwiceClosesTwice`).
  The second routine may also overwrite the exit code of a killed command
  (`KilledWithAnyCode`).
- A finished command keeps its slot if and only if a runtime call failed while its
  routine was clearing it and no `Destroy` has forgotten the store since; until then every
  `Execute` of the role is refused. A `Kill` that destroys the container between the
  routine's existence check and its destroy call makes that call fail, so this happens
  although nothing else went wrong (`FinishedKeepsSlotWhen`, `KeptRefusesExecute`,
  `FinishedMayKeepSlot`).
- `Destroy` forgets a container that it failed to remove. If the volume stays too, as it
  does while that container uses it, another `Execute` puts a second container of the role
  beside it. After a crash recovery keeps whichever is listed first and destroys the other,
  be it the running one; if the volume was replaced in between and the forgotten one is
  listed first, recovery fails and destroys both (`RecoveryRoundTrip`, `ForgottenWhen`,
  `FirstListedSurvives`, `DestroyLeavesTwo`, `RunningIsDestroyed`).
- A running command that recovery took over and that no `AttachWait` attaches has no
  routine: `Wait` on it never returns, and a `Kill` removes its container but leaves it
  current and unfinished, so every `Execute` of the role is refused until a `Destroy`
  (`UnattachedBlocksRole`, `KilledStaysCurrent`).
- A failed listing of volumes counts as "no volume": recovery then neither adopts
  nor deletes the run's volumes, and the next `Prepare` makes a second one
  (`InitAllOrNothing`, `UnlistedVolumesStay`, `UnlistedVolumeDoubles`).
- Configured labels that replace one of the two common labels make every resource
  of the run unfindable (`RoundTripNeedsCommonLabels`, `QueryFindsContainer`).
- A recovered executor keeps a finished command's container until `Destroy`. After one
  more `Execute` of that role and one more crash, recovery keeps whichever of the two
  containers the runtime lists first and destroys the other, be it the running one
  (`ResumedRoundTrip`, `OneOfTwoSurvives`, `ExecuteBesideFinished`).
- A container whose state cannot be read at recovery is destroyed without an error, and
  the next one may be adopted (`ScanPartitions`, `NewCommandFromContainer`).
- A comment in the post-run step says that a failed existence check counts as a failure;
  the code then also records a kill, since it takes the container as gone
  (`ResultsCoherent`).
- A run may end without an error while its container has not: if and only if the inspection
  after it sees that, the command stays unfinished with its channel closed, and `Wait`
  returns an unfinished result (`WaitSeesFinal`, `WaitReturnsUnfinished`).
- Bind mounts requested for a container are not passed on to the runtime
  (`OptionsReadBack`).
- A qualified decrypted column is looked up under its new name, so its own name is
  lost unless the two agree (`PgpNeedsOwnName`).
- A label key that contains `=` is sent to the runtime as another key, so the filters
  agree with the query if and only if no key contains one (`FiltersAgreeWhen`,
  `FilterKeyWithEquals`); the executor's own keys contain none.
- An environment variable is read back from a container if and only if neither its name
  nor its value contains `=` (`EnvironReadBack`); the environment requested for a command
  is not passed on to its container at all (`RequestContainer`).
- A helper goroutine whose caller left on an ended context never exits
  (`AbandonedHelperNeverExits`).

## Model

| member | source | states |
|---|---|---|
| ProtocolRuns.StartInv | internal/executors/container/executor.go:60-90 | an executor as recovery builds it satisfies the invariant |
| ProtocolRuns.NextKept | internal/executors/container/executor.go:158-282 | every step of every thread and of the environment keeps the invariant: locks agree with program counters, containers are accounted for, results are coherent |
| ProtocolRuns.RunKept | internal/executors/container/executor.go:158-282 | the invariant holds in every state of every interleaving |
| ProtocolEvents.StartRecords | internal/executors/container/executor.go:647-684 | what a state records of a spent once, what the runtime answered about an ended run, a failed clearing or a failed Destroy call is exactly what happened in the run that led to it |
| ProtocolRuns.StepGood | internal/executors/container/executor.go:536-684 | every step leaves its own thread at a program counter whose assumptions hold and keeps its promise to the others: only a routine judges its own unsettled command, slots change only under the store's mutex, container ids are not reused |
| Interference.LocksKept | internal/executors/container/executor.go:172-282 | each mutex has exactly the one owner whose program counter lies between its lock and its unlock |
| Interference.Stable | internal/executors/container/executor.go:172-282 | what a thread relies on survives any promise-keeping step of a thread that holds other mutexes |
| Interference.SoleRoutine | internal/executors/container/executor.go:192-192 | two live routines of one command exist only if AttachWait attached a command that Execute had attached |
| ProtocolTheorems.FinishedImpliesSlotFree | internal/executors/container/executor.go:647-684 | once any caller has seen a command finished, in no later state is it its store's current command, unless a runtime call of its clearing failed in the run |
| ProtocolTheorems.FaultFreeFinishedSlotFree | internal/executors/container/executor.go:260-282 | in runs without failing calls, a command once seen finished is out of its slot for good |
| ProtocolAnswers.AnswersAreTrue | internal/executors/container/executor.go:536-584 | whenever a call returns, in any run, its answer is true of the state it returns in: State, Wait and AttachWait return the command's whole result; Execute is refused exactly while a command is current and otherwise made the current one or failed; Kill, Prepare and Destroy report no error only for a container or volume that is as asked |
| ProtocolAnswers.SettledAnswers | internal/executors/container/executor.go:536-545 | after a command's post-run step every State, Wait or AttachWait returns the result that step wrote, unless an AttachWait attached the command again |
| ProtocolAnswers.LaterAnswersAgree | internal/executors/container/executor.go:536-570 | once any call has returned a command as finished, every later answer about it has the same code, kill flag and error, unless an AttachWait attached it again |
| ProtocolAnswers.StateReturns | internal/executors/container/executor.go:536-545 | while a command's mutex is free, State returns its record in its own three steps |
| ProtocolAnswers.DestroyAnswersAll | internal/executors/container/executor.go:108-156 | a Destroy reports an error if and only if one of its runtime calls failed, however it interleaves |
| ProtocolAnswers.ForgetsOnlyGone | internal/executors/container/executor.go:245-258 | a Destroy that forgets a command while its container exists has failed and will say so |
| ProtocolAnswers.ModeTells | internal/executors/container/executor.go:596-632 | a routine of a new command starts its container; any other starts it only if it was seen created or configured, attaches only if it was seen running, and runs nothing otherwise |
| ProtocolAnswers.RoutinesStart | internal/executors/container/executor.go:172-194 | a routine is started only by the Execute that made its command, to start the container at once, or by an AttachWait that finds the once unspent, to look first; in any state |
| ProtocolSlots.FinishedKeepsSlotWhen | internal/executors/container/executor.go:260-282 | a command once seen finished is its store's current one in a later state if and only if a runtime call of its clearing failed and no Destroy has forgotten the store since; unless an AttachWait attached it again |
| ProtocolSlots.KeptRefusesExecute | internal/executors/container/executor.go:172-182 | while a finished command keeps its slot and no Destroy forgets the store, no Execute of its role makes a command |
| ProtocolForgetting.ForgottenWhen | internal/executors/container/executor.go:245-258 | a command whose container exists is in its store if and only if no Destroy has forgotten it in the run, and if one has, a runtime call of a Destroy about that container failed |
| ProtocolForgetting.UnattachedBlocksRole | internal/executors/container/executor.go:547-570 | a running command that recovery adopted and no AttachWait attached stays unfinished, no Wait on it returns, it is current until a Destroy forgets it, and while it is no Execute of its role makes a command |
| ProtocolForgetting.KilledStaysCurrent | internal/executors/container/executor.go:572-584 | from every recovered executor with a running command there is a Kill that removes its container and leaves the command current and unfinished |
| ProtocolTheorems.ResultIsFinal | internal/executors/container/executor.go:647-684 | after the post-run step a command's result and verdict never change again, unless an AttachWait of the run attached it again |
| ProtocolTheorems.WaitSeesFinal | internal/executors/container/executor.go:547-570 | Wait and AttachWait return only after the post-run step; what they return is the result in every later state, and it is unfinished if and only if the inspection after the run saw a container that had not ended; unless an AttachWait attached the command again |
| ProtocolTheorems.AttachedOnce | internal/executors/container/executor.go:557-570 | at most one routine is started for a command if and only if no AttachWait of the run attached it again; then its channel is closed at most once and no two routines of it are live; this is so when AttachWait is never called on a command that Execute made while it is unfinished |
| ProtocolAttaching.DoubledByAttachWait | internal/executors/container/executor.go:557-570 | a command is attached twice if and only if an AttachWait of the run reached its once on a command that Execute had made |
| ProtocolAttaching.ReattachedWhenSeenUnfinished | internal/executors/container/executor.go:557-570 | an AttachWait attached such a command again, or is about to, if and only if the check of an AttachWait read it unfinished; then AttachWait was called on it while it was unfinished |
| ProtocolAttaching.NeverReattached | internal/executors/container/executor.go:557-570 | runs that never call AttachWait on an unfinished command made by Execute attach no command twice |
| ProtocolTheorems.ResultsCoherent | internal/executors/container/executor.go:724-736 | unfinished results are code 0, not killed, no error; killed or failed ones are finished; unless an AttachWait attached the command again, those have code 1 and a judged command's result is the one of its verdict |
| ProtocolTheorems.ContainersAccounted | internal/executors/container/executor.go:245-294 | every existing container of this executor's commands belongs to its store's current or previous command or a Destroy's call about it failed in the run; one in an Execute's hands belongs to no command; two existing containers of new commands of one role mean such a failure |
| ProtocolTheorems.StoresShaped | internal/executors/container/executor.go:42-58 | commands sit in the store of their role; the previous slot only ever holds a finished command adopted at recovery, and never anything when recovery adopted none |
| ProtocolTheorems.StaleRoutinesHarmless | internal/executors/container/executor.go:260-282 | in every reachable state, however late a routine runs, its step removes no container but its command's and frees no slot but its command's |
| ProtocolTheorems.WhoFreesCurrent | internal/executors/container/executor.go:245-282 | a command leaves the current slot only through a step of its own routine or of Destroy |
| ProtocolTheorems.LockOrder | internal/executors/container/executor.go:158-194 | a thread holding a store mutex waits for no mutex; one holding a command mutex waits for a store mutex at most |
| ProtocolTheorems.NoWaitingCycle | internal/executors/container/executor.go:647-684 | no reachable state has a cycle of threads, of any length, each waiting for a mutex the next one holds |
| ProtocolTheorems.SomeHolderSteps | internal/executors/container/executor.go:245-282 | while any mutex is held, some holder can make its next step even if its runtime call fails |
| ProtocolHistory.KilledByRequest | internal/executors/container/executor.go:572-584 | a killed result means that this run called Kill on the command or Destroy, or that a context ended which the command ran under and which a call of Execute or of its AttachWait named; unless the existence check after its run failed, a step removed its container from outside, or an AttachWait attached it again |
| ProtocolHistory.RunDecides | internal/executors/container/executor.go:647-669 | how the run of a command returned decides its result: the abort error a kill with code 1, another error that error with code 1, and a closed command saw exactly one of the three ends; unless an AttachWait attached it again |
| ProtocolHistory.ResultTells | internal/executors/container/executor.go:647-699 | each answer of the runtime after a run gives its literal result: a failed check, a missing container, an unreadable state, an ended container with its exit code, or one that has not ended; a command never judged is as it was made |
| ProtocolHistory.AbortedRunEndsClean | internal/executors/container/executor.go:666-684 | a run that returned the abort error had an ended context and ends finished, killed, code 1, no error, unless an AttachWait attached the command again; if no runtime call of its clearing failed, its slot is free and its container gone, unless a Destroy's call about it failed |
| ProtocolHistory.MissingContainerIsKilled | internal/executors/container/executor.go:651-665 | a run that returned no error while its container was already removed ends finished, killed, code 1, for good, unless an AttachWait attached the command again |
| ProtocolProgress.RoutineCanFinish | internal/executors/container/executor.go:596-645 | in every reachable state, whatever mutexes are held, every live routine can run to its end even if every runtime call fails: the holders release their mutexes, then it closes its channel once and no mutex is held |
| ProtocolProgress.ReleaseAll | internal/executors/container/executor.go:245-282 | from every invariant state the holders can release all mutexes even if every runtime call fails, without closing a channel or changing a container |
| ProtocolWitness.RoutineFinishesAlone | internal/executors/container/executor.go:596-645 | while no other thread holds a mutex, a live routine needs no other thread to run to its end, even if every runtime call fails |
| ProtocolWitness.AttachingTwiceClosesTwice | internal/executors/container/executor.go:192-192 | from every freshly built executor with a free payload slot there is a run of Execute and AttachWait that closes one channel twice |
| ProtocolWitness.KilledWithAnyCode | internal/executors/container/executor.go:686-699 | from every freshly built executor with a free payload slot there is a run, with a second routine, to a killed result with any given code |
| ProtocolWitness.WaitReturnsUnfinished | internal/executors/container/executor.go:686-699 | from every freshly built executor with a free payload slot there is a run of Execute and Wait in which the command's run returns no error while its container has not ended, the channel is closed once and Wait returns an unfinished result |
| ProtocolWitness.KillBeatsClear | internal/executors/container/executor.go:284-294 | a Kill between the routine's existence check and its failing destroy call leaves the command in its slot with its container gone |
| ProtocolWitness.FinishedMayKeepSlot | internal/executors/container/executor.go:572-584 | from every freshly built executor there is a run to a finished command that is still current although its container is gone and nothing was lost or removed from outside |
| PodmanAttach.AttachContract | internal/executors/container/podman_runtime.go:108-149 | in every interleaving of caller and helper: the abort error only after the context ended, at most one start, only once the attachment was ready, none when only attaching; how it may return is what the protocol assumes |
| PodmanAttach.AttachReturns | internal/executors/container/podman_runtime.go:108-149 | which error comes back, told by the events of any run: a failed start returns its error, the abort error comes back exactly when the caller left on its ended context, and anything else is what the attach call returned; no error means that it returned none and no start failed |
| PodmanAttach.MayReturnExactly | internal/executors/container/podman_runtime.go:108-149 | what the protocol lets a run return is no more and no less than what some interleaving returns, for each mode and context |
| PodmanAttach.CallerCanReturn | internal/executors/container/podman_runtime.go:108-149 | wherever a run stands its caller can still come back, and from its last wait with the abort error as soon as its context ended |
| PodmanAttach.AbandonedHelperNeverExits | internal/executors/container/podman_runtime.go:111-116 | once the caller returned without the helper's error, the helper stays blocked in every continuation |
| Recovery.ScanPartitions | internal/executors/container/executor.go:420-439 | for every list and failure pattern the scan keeps the first usable container alone and tries to destroy every other one exactly once, in order; it fails exactly when an earlier one was rejected or a destroy failed |
| RecoveryTheorems.StoreRecovery | internal/executors/container/executor.go:411-458 | recovering a store adopts the first usable container if nothing failed; otherwise it also gets its one destroy attempt; exactly those whose destroy worked are gone |
| RecoveryTheorems.StoreAdopts | internal/executors/container/executor.go:501-531 | an adopted command has the id and role of its container's labels, mounts the volume, and carries the result its container's state says |
| RecoveryTheorems.StoreLeaves | internal/executors/container/executor.go:411-458 | unless it failed on a runtime that refuses calls, the only container of the role left is the adopted one, and no other container is touched |
| RecoveryTheorems.VolumeRecovery | internal/executors/container/executor.go:382-409 | with the listing working, none or one volume is taken over; two or more are an error, and each is deleted whichever other deletions fail |
| RecoveryTheorems.InitAllOrNothing | internal/executors/container/executor.go:341-380 | an init that succeeded, whatever calls failed, or any init with container listing and deletion working, takes over the one volume and per role the one remaining container, or leaves no resource of the run and holds none, if and only if the volume listing works or there is no volume |
| RecoveryTheorems.InitKeepsOthers | internal/executors/container/executor.go:341-380 | whatever happens and whichever calls fail, init removes only resources that match the run's queries and changes none |
| RecoveryTheorems.UnlistedVolumesStay | internal/executors/container/executor.go:385-388 | a failed volume listing, whatever else fails, leaves the run's volumes in place, unknown to the executor |
| RoundTrip.RunWindow | internal/executors/container/executor.go:100-144 | in every run with Execute only between Prepare and Destroy: what carries the run's labels is this executor's, labelled for its command and role, mounting the one volume the executor names |
| RoundTripTheorems.RecoveryRoundTrip | internal/executors/container/executor.go:341-458 | from every state of every such run, faults included, a fresh init succeeds, takes the same volume and per role the command whose container exists (same id, role and container, current if running, previous if ended) if and only if no command whose container exists was forgotten; then these are all such commands |
| RoundTripTheorems.NothingForgottenWhen | internal/executors/container/executor.go:245-258 | no command whose container exists was forgotten if and only if no Destroy of the run cleared a store that held a command whose container still exists |
| RoundTripTheorems.FaultFreeRoundTrip | internal/executors/container/executor.go:341-458 | the same for every run without failing calls, with nothing assumed about its end |
| RoundTripTheorems.RoundTripNeedsCommonLabels | internal/executors/container/executor.go:296-330 | with a volume prepared, the round trip holds if and only if the configured labels leave the two common labels as they are and no command whose container exists was forgotten |
| Lifecycle.ResumedStarts | internal/executors/container/executor.go:449-457 | what a successful recovery hands over is a state the protocol may start from: stores by role, finished commands closed and in the previous slot |
| Lifecycle.RecoveryStarts | internal/executors/container/executor.go:341-380 | a recovery that succeeded, whichever calls failed, and overlooked no volume starts a protocol run that names the run's only volume |
| Lifecycle.RecoveryIsIdempotent | internal/executors/container/executor.go:341-458 | a second init over what a successful one left takes over the same volume and commands; over what a failed one left with deletion working, it finds nothing |
| RoundTripTheorems.FirstListedSurvives | internal/executors/container/executor.go:420-439 | in every state of a disciplined run, whatever was forgotten: if the container of a role listed first mounts the volume, recovery takes over its command and destroys all the others; otherwise recovery fails and destroys them all; provided these destroy calls work |
| RoundTripTheorems.OneOfTwoSurvives | internal/executors/container/executor.go:420-439 | when a finished command adopted earlier still has its container beside a newer command's and nothing was forgotten, recovery keeps one of the two and makes the one destroy call for the other, provided it works |
| RoundTripTheorems.TakenOverWhenSole | internal/executors/container/executor.go:341-458 | from every state of a disciplined run, whichever destroy calls fail, recovery takes over everything if and only if no command whose container exists was forgotten and each role has at most one container left |
| RoundTripWitness.DestroyLeavesTwo | internal/executors/container/executor.go:108-156 | from every executor that found nothing of its run: Prepare, Execute, a Destroy whose calls about container and volume fail, and another Execute leave the forgotten container beside the running one, both mounting the volume |
| RoundTripWitness.RunningIsDestroyed | internal/executors/container/executor.go:420-439 | recovery from there takes over the forgotten command and destroys the running one's container when the forgotten one is listed first |
| Lifecycle.FreshInitIsScratch | internal/executors/container/executor.go:341-380 | init over a runtime without resources of the run is where the from-scratch statements start |
| Lifecycle.ResumedRoundTrip | internal/executors/container/executor.go:341-458 | the round trip for a recovered executor, so for any number of crashes, whichever destroy calls of either recovery fail: from every state of every disciplined run, recovery takes over everything if and only if no command whose container exists was forgotten by a Destroy and no role has both a newer command's container and that of a finished command adopted before |
| Lifecycle.ExecuteBesideFinished | internal/executors/container/executor.go:172-194 | one Execute on a recovered executor whose finished payload command still has its container reaches that exception |
| Lifecycle.OneVolume | internal/executors/container/executor.go:100-144 | after an init that succeeded and could list volumes or had none to list, however Prepare, Destroy, their failing calls and all other steps interleave, the run's volumes are exactly the one the executor names, or none |
| Lifecycle.UnlistedVolumeDoubles | internal/executors/container/executor.go:121-134 | after an unnoticed listing failure of a run with a volume one Prepare makes a second one |
| Executors.ContainerExecutor.Init | internal/executors/container/executor.go:341-380 | the method leaves runtime, stores, volume name and recovered flag as the recovery function says, for every failure pattern |
| Executors.ContainerExecutor.RecoverParts | internal/executors/container/executor.go:341-358 | volume, support store and payload store are recovered in this order, each as its recovery function says on what the earlier ones left |
| Executors.ContainerExecutor.InitVolume | internal/executors/container/executor.go:382-409 | the two loops pick the volume or delete them all, as the recovery function says |
| Executors.ContainerExecutor.InitStore | internal/executors/container/executor.go:411-458 | the store holds the adopted command in the slot its state calls for, and the destroy calls made are exactly the scan's |
| Executors.ContainerExecutor.ScanContainers | internal/executors/container/executor.go:418-447 | the loop over the listed containers is the scan, and a failure also costs the adopted one |
| Executors.ContainerExecutor.ScanItem | internal/executors/container/executor.go:420-439 | one listed container is adopted if nothing is adopted yet and it is usable; otherwise it gets a destroy call |
| Executors.ContainerExecutor.NewCommandFromContainer | internal/executors/container/executor.go:501-531 | rejected exactly when id or role cannot be read from the labels; no command and no error when the state cannot be read; the command keeps command line, image, environment and role; a finished one has its channel closed and its once spent |
| Executors.NewContainerExecutor | internal/executors/container/executor.go:73-90 | missing options and an empty workspace are refused before the runtime is asked; otherwise the executor is the outcome of init |
| Executors.ContainerExecutor.Prepare | internal/executors/container/executor.go:121-134 | the volume is made once, under the run's labels; a failing call leaves everything as it was |
| Executors.ContainerExecutor.Destroy | internal/executors/container/executor.go:108-156 | both stores are emptied whatever fails; the volume is tried even after a failure; it fails exactly when the volume keeps its name or some command's container still exists or could not be checked, and otherwise the volume is gone |
| Executors.ContainerExecutor.ClearCmdStore | internal/executors/container/executor.go:245-258 | both commands are forgotten even if destroying fails; it fails exactly when a container of one of them still exists or could not be checked |
| Executors.ContainerExecutor.ClearCmdStoreFromCmd | internal/executors/container/executor.go:260-282 | only the current command's own slot is freed, and exactly if its container no longer exists and that could be checked; another current command is an error that changes nothing, an empty slot too unless the caller ignores it |
| Executors.ContainerExecutor.DestroyRunningCmdResources | internal/executors/container/executor.go:284-294 | it fails exactly when the container still exists afterwards or could not be checked, and only if a runtime call failed; nothing else is removed |
| Executors.ContainerExecutor.RequestContainer | internal/executors/container/executor.go:196-243 | an empty image name is an error for payload commands and the support image otherwise; a container is made exactly when the image is there and the call works, and is the one asked for |
| Executors.NewContainerTells | internal/executors/container/executor.go:196-243 | what that container is, word by word: its image, the text of its name with ten digits of the command's id, the volumes it mounts and where, its command line and input flag, and the environment the runtime sets, whatever was requested |
| Executors.ContainerExecutor.Execute | internal/executors/container/executor.go:172-194 | refused while a command of the role is current; otherwise the new command becomes current exactly when its container was made as requested, with one routine started and its once unspent; the previous slot is untouched |
| Executors.ContainerExecutor.PostRunSetState | internal/executors/container/executor.go:647-684 | alone, the method writes the judged result and frees the slot of the current command exactly if its container no longer exists and that could be checked; the result's error and a failed clearing are reported |
| Executors.ContainerExecutor.SetStateFromRun | internal/executors/container/executor.go:651-665 | a run error is finished, code 1, that error; an abort is a kill with code 1; after a run without error a failed check is that error and a kill, a missing container a kill, an unreadable state a failure, an ended container its exit code, any other leaves the result |
| Executors.JudgedTells | internal/executors/container/executor.go:647-699 | the same cases, for all results and runtimes, of the judgement that protocol and method share |
| Refinement.JudgeRefines | internal/executors/container/executor.go:647-684 | in any protocol state with a free command mutex, the lock, check and state steps of a routine, with the runtime answering as the oracle says, leave exactly the result the method writes and change nothing else but the judgement's record |
| Refinement.ClearRefines | internal/executors/container/executor.go:260-294 | in any protocol state with a free store mutex, the clearing steps of a current command's routine leave runtime and slot exactly as the method does, for every failure pattern |
| Executors.ContainerExecutor.Kill | internal/executors/container/executor.go:572-584 | a finished command is left alone; otherwise it fails exactly when the command's container still exists afterwards or could not be checked |
| Refinement.KillRefines | internal/executors/container/executor.go:572-584 | in any protocol state with a free command mutex, a Kill alone leaves the runtime as the method does and answers alike, for every failure pattern |
| Executors.AttachedCommand.SetStateFromContainerState | internal/executors/container/executor.go:686-699 | an unreadable state is a failure with code 1; an ended container gives its exit code; any other leaves the result as it is |
| CommandResults.StatusTells | internal/executors/container/executor.go:694-721 | a container ended if its status is the word stopped or exited, can be started if created or configured, runs if running, in whatever letters these are written; no two of these at once |
| Executors.AttachedCommand.PreFlightCheck | internal/executors/container/executor.go:701-722 | start only a created or configured container, attach only to a running one, neither if finished, missing or unreadable; never both |
| Executors.AttachedCommand.AttachOnce | internal/executors/container/executor.go:557-570 | the once is spent; a routine is started exactly if it was not spent before |
| Executors.CmdSyncStore.Clear | internal/executors/container/executor.go:42-51 | clears both slots, or the one slot that holds the command, the current one first |
| Executors.CmdSyncStore.Push | internal/executors/container/executor.go:53-58 | the new command is current; an earlier current one becomes previous |
| Runtime.PodmanRuntime.GetContainersByLabels | internal/executors/container/podman_runtime.go:209-225 | for every query lists exactly the containers the filters accept, each with the options read from it, environment included; these are the ones that match, in the runtime's order, when no key contains '=' |
| Runtime.PodmanRuntime.GetVolumesByLabels | internal/executors/container/podman_runtime.go:196-207 | for every query lists exactly the volumes the filters accept, which are those that match when no key contains '=' |
| Runtime.PodmanRuntime.CreateContainer | internal/executors/container/podman_runtime.go:83-100 | the new container carries the requested name, labels, image, command, environment and input flag, and mounts each requested volume once |
| Runtime.PodmanRuntime.DeleteVolume | internal/executors/container/podman_runtime.go:60-70 | deleting a volume that does not exist succeeds; a failing call changes nothing |
| Runtime.OptionsReadBack | internal/executors/container/podman_runtime.go:227-256 | reading a created container back gives the options it was made from, except that the bind mounts are lost and a variable survives if and only if neither its name nor its value contains '=' |
| Containers.BuildPodmanVolumes | internal/executors/container/podman_runtime.go:258-264 | one mount per requested volume, whatever the map's order |
| Containers.BuildContainerFromInspection | internal/executors/container/podman_runtime.go:227-256 | volumes and binds are the mounts of each kind by name or source and the environment the entries by name, the last one winning; an entry with more than one '=' loses its value |
| Containers.MountsReadBack | internal/executors/container/podman_runtime.go:239-245 | reading the mounts of a created container gives back the requested volumes, for every order |
| Containers.EnvironReadBack | internal/executors/container/podman_runtime.go:240-247 | a requested variable is read back with its value if and only if neither its name nor its value contains '=' |
| Labels.BuildResourceLabels | internal/executors/container/executor.go:296-303 | common labels, replaced by configured ones, replaced by the given ones |
| Labels.BuildContainerLabels | internal/executors/container/executor.go:305-317 | those with the command id, and the role above all |
| Labels.LabelsTell | internal/executors/container/executor.go:296-317 | the labels of a container, word by word: role and id over the configured labels over the two common ones, and no others |
| Labels.QueriesTell | internal/executors/container/executor.go:319-330 | what the executor asks for, word by word: containers of its run and the role, volumes of its run |
| Labels.ReadsTell | internal/executors/container/executor.go:738-755 | a command id is read exactly from a label that parses and is not all zeros, a role exactly from the role label, support exactly for its word |
| Labels.BuildLabelFilters | internal/executors/container/podman_runtime.go:266-276 | one filter per label, the key alone when the value is empty |
| Labels.FiltersSelectMatches | internal/executors/container/podman_runtime.go:266-276 | the filters accept exactly the resources whose labels match the query, when no key contains '=' |
| Labels.FiltersAgreeWhen | internal/executors/container/podman_runtime.go:266-276 | the filters agree with the query on all labels if and only if no key of the query contains '=' |
| Labels.FilterKeyWithEquals | internal/executors/container/podman_runtime.go:266-276 | an instance: the filter of the key "a=b" accepts a resource that does not match it |
| Labels.QueryFindsContainer | internal/executors/container/executor.go:319-330 | the query of a role finds a container built for a role if and only if the roles agree and the configured labels keep the common ones |
| Labels.QueryFindsVolume | internal/executors/container/executor.go:382-385 | the volume query finds a volume of the run if and only if the configured labels keep the common ones |
| Labels.LabelsReadBack | internal/executors/container/executor.go:738-755 | command id and role written into the labels are read back, whatever labels are configured |
| Uuids.ParseFormat | internal/executors/container/executor.go:738-748 | a formatted identifier parses back to itself (section 4 of RFC 9562), and so does it after the URN prefix, in braces, and without dashes |
| RandomStrings.RandomString | internal/utils/random.go:17-33 | position n-1-k of the result is the letter of the k-th accepted chunk of the stream; no chunk after the n-th accepted one is looked at; the draws taken are those chunks' draws, one when n is 0; it ends on every stream that holds n letters |
| RandomStrings.LettersTell | internal/utils/random.go:8-8 | the 52 letters are the small ones and then the capital ones, in order |
| RandomStrings.LettersDiffer | internal/utils/random.go:8-8 | no letter occurs twice, so that strings of different accepted chunks differ |
| ChunkCounting.SpellingCount | internal/utils/random.go:17-33 | the number of m-chunk sequences whose first accepted chunks spell a string depends on its length alone |
| ChunkCounting.NoBias | internal/utils/random.go:24-27 | any two strings of one length are spelled by equally many chunk sequences of every length |
| ChunkCounting.DrawsPerTuple | internal/utils/random.go:8-13 | every sequence of ten chunks comes from exactly 8 of the 2^63 values of a draw |
| SelectClause.RenderUnique | internal/db/query_utils.go:23-44 | equal clause texts come from equal column lists: same order, names, tables, new names and keys |
| SelectClause.PgpNeedsOwnName | internal/db/query_utils.go:34-44 | a renamed decrypted column is read back if and only if it is unqualified or its new name is its own |
| SelectClause.PlainTells | internal/db/query_utils.go:23-32 | the text of a plain column, qualified or not, renamed or not |
| SelectClause.PgpTells | internal/db/query_utils.go:34-44 | the text of a decrypted column: the lookup is its own name, or its new name behind its table |
| SelectClause.ClauseTells | internal/db/query_utils.go:75-81 | the clause holds the columns' texts in their order, with a comma and a blank between two |
| SelectClause.Builder.Build | internal/db/query_utils.go:75-81 | the text is the rendering of the collected columns |
| SelectClause.Builder.ColumnPgpEnc | internal/db/query_utils.go:70-73 | adds one decrypted column without a table at the end of the list |
| SelectClause.Builder.ColumnRenamed | internal/db/query_utils.go:66-69 | adds one renamed column without a table at the end of the list |
| SelectClause.Builder.Column | internal/db/query_utils.go:62-65 | adds one plain column without a table at the end of the list |
| SelectClause.Builder.ForTable | internal/db/query_utils.go:113-115 | a view that shares this builder's list |
| SelectClause.TableBuilder.ColumnPgpEnc | internal/db/query_utils.go:104-107 | adds one decrypted column of the view's table at the end of the shared list |
| SelectClause.TableBuilder.ColumnRenamed | internal/db/query_utils.go:100-103 | adds one renamed column of the view's table at the end of the shared list |
| SelectClause.TableBuilder.Column | internal/db/query_utils.go:96-99 | adds one column of the view's table at the end of the shared list |
| SelectClause.TableBuilder.ForTable | internal/db/query_utils.go:92-94 | another view of the same list, not of this view's table |
| SelectClause.TableBuilder.Build | internal/db/query_utils.go:88-90 | the text of the whole shared list |
| ArchiveScanner.ScanEntry | internal/storage/scanner.go:124-178 | the entry is decided by the first block, by all content up to the first empty read, and by whether a read failed; an unrecognised first block ends it before any later failure |
| ArchiveScanner.EntryOfFile | internal/storage/scanner.go:124-178 | what a file without read error gives, whatever its chunks: JSON the document and error of the JSON decoder on the whole content, text the YAML decoder's document and never an error, unrecognised without a format if that failed; anything else is unrecognised and empty, an empty file blank |
| ArchiveScanner.EntryOfBrokenFile | internal/storage/scanner.go:130-133 | a read that fails is the file's error and nothing is decoded, unless the first block had ended the scan as unrecognised |
| ArchiveScanner.ChunkingIndependent | internal/storage/scanner.go:128-152 | two readers that cut the same content differently, into buffers of any sizes above 0, give the same entry if their first blocks agree, decoded from the whole content |
| ArchiveScanner.EmptyReadTruncates | internal/storage/scanner.go:135-137 | an empty read before the end cuts the content short there |
| ArchiveScanner.ScanArchive | internal/storage/scanner.go:76-122 | no result for an uncompressed archive or a bad header anywhere; otherwise the fold over its items |
| ArchiveScanner.LastWins | internal/storage/scanner.go:101-119 | the entries are exactly those of regular matching files, the last one of a name winning |
| ArchiveScanner.OnlyRegularMatching | internal/storage/scanner.go:101-119 | a path has an entry if and only if some regular file of that name is in the archive and some glob matches it |
| ArchiveScanner.FailedWhenErred | internal/storage/scanner.go:111-116 | the scan failed if and only if some scanned file erred, even one whose entry was replaced |
| ArchiveScanner.IsConfigured | internal/storage/scanner.go:37-44 | a path is scanned if and only if some glob matches it |

## Left out

- Podman's client, sockets, image build and pull, stream bytes: foreign I/O. Image
  checks appear as one step that works or fails.
- What podman means by label filters, and that it lists each resource once and does
  not give out a container id twice, are assumptions about the environment, written
  out in `Labels.FilterAccepts`, `Recovery.IsListing` and `Containers.World`.
- A failing runtime call is taken to change nothing; a container created by a call
  that then reports an error is not modelled.
- Runtime.PodmanRuntime.DeleteVolume: the force flag only decides whether podman refuses
  to delete a volume in use, which is podman's doing; a refusal is one of the failures.
- Whether destroying a container that is already gone is an error is left to the
  runtime in the protocol: the step may fail or work. The class model makes it an error.
- Recovery.ScanPartitions: within one operation a call's failure depends on the
  target alone, which is no restriction because no target is asked about twice by
  calls of one kind.
- Concurrent calls of `Prepare` and `Destroy` race on the volume name in the source;
  the protocol runs them one at a time.
- Executors.ContainerExecutor.Execute: the class methods run alone; interleavings
  are the protocol's subject. `Refinement` ties judging, clearing and killing; Execute,
  Prepare and Destroy are stated on both sides and not tied step by step.
- Generating identifiers and the volume's name: fresh ones are parameters, and so is the
  environment that podman gives a container from its image and the requested variables.
- The identifier parser is a library's (go.mod:11); `Uuids.Parse` models the four textual
  forms it reads.
- The getters `Id`, `Recovered` and `GetPreviousRunningCommand`; logging,
  configuration, factories and HTTP plumbing.
- A volume named by the empty string is excluded by hypothesis where it matters:
  podman names every volume, and so does every mount (`Lifecycle.MountsNamed`).
- RandomStrings.RandomString: seeding and the concurrency of the shared source; a
  negative length, which panics.
- ArchiveScanner.ScanEntry: decoders, format detection and globs are arbitrary
  functions; gzip and tar are a flag and a list of items.
- Secrets, database access and the HTTP interface: their meaning lives in Postgres
  and its extensions.
