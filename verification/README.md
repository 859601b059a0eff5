# Burd agent: provider jobs and the session around them

A Dafny model of the part of the Burd agent that takes a provider job from the control plane, runs it in a
container and reports one result, together with the control channel, the lifecycle file, the log tail, the GPU
inventory publisher and the artifact copy that surround it. `dafny verify dfyconfig.toml` checks all of it.
Nothing was executed: every statement below is a statement about the model.

| file | models |
|---|---|
| `AssignmentProtocol.dfy` | one accepted assignment: three events, three stages, cleanup, one result, while a watcher sets the cancellation flags at any moment |
| `CancellationWatcher.dfy` | the watcher itself, with its silence bound |
| `ReplayMemory.dfy` | the poll loop and its memory of assignments already run |
| `DockerHost.dfy` | a faulty Docker world of labelled containers and volumes, and the artifact storage built in it |
| `ContainerExecutor.dfy` | the executor that creates, watches, stops and removes the workload container, against deadlines |
| `SessionChannel.dfy` | control sequence numbers and telemetry batches over any number of connections |
| `Lifecycle.dfy` | the phase machine shared by the supervisor and the control loop, and the status file |
| `LogTail.dfy` | the bounded log tail and its line-by-line redaction |
| `GpuInventory.dfy` | the GPU inventory snapshot and the publisher loop |
| `ArtifactCopy.dfy` | the artifact helper's copy, and the byte totals that bound it |
| `Streams.dfy` | what reading a file or a pipe to its end brings |
| `Outcome.dfy` | the types and small functions the others share |

## How it is modelled

- What cannot be seen (Docker, the control plane, the disk, the clock, the scheduler) is a method whose body chooses
  freely (`*`), so callers know only its contract, or a script of choices quantified over in the theorem. Every
  interleaving and every pattern of faults is therefore covered.
- The assignment and the executor write a log of what they do. The log carries a summary that a subset type ties
  to it; the promises are proved about the whole log.
- Docker keeps its own log: every command it was given, with when it began and ended, its deadline, its container or
  volume and its result, and of a creation also the name, labels, mounts and settings asked for. The artifact storage is specified by it. The executor's ledger is tied to it by its type: every operation
  in the ledger is the commands Docker was given between its two ends, with the same time, result and state seen,
  and nothing Docker was given lies between two operations.
- The session channel and the lifecycle are step functions over scripts. What a turn does is stated apart from them, as
  theorems about one more choice after any script. The class `ControlChannel` and the class
  `LifecycleReporter` are proved to do what the step functions say.
- No lemma relies on automatic induction. `hide` keeps definitions a proof does not need out of it.

Assumptions of the model: the two flags behave as sequentially consistent memory; sleeps end on time in the watcher
and no earlier than asked in the executor, over a clock that never goes back; a container is known by its name, and
no other Docker client changes a named resource between a look-up and the removal that follows it; creating a
container fails if a volume it mounts is missing, and removing a mounted volume fails; a command's deadline is set at
the instant its clock is read; a fingerprint stands for the claims it hashes; a message that has not arrived when its
connection closes never arrives; the collector numbers its samples consecutively; one read of a log stream brings at
most the 8 KiB of its buffer.

## What the proofs found

- A number the server has accepted *is* sent again in one case: when the server rejects a telemetry batch and cannot
  look its own number up, its reply says 0 (`crates/burd-control-plane/src/http.rs:3766`), and the agent starts over
  at 1. `MisreportHappens` gives the run, and `ResentExactlyAfterMisreport` shows it is the only way below the top of
  the range. At the largest 64-bit number the counter saturates, and that number is sent again.
- The server accepts any number above its last one, not only the next; the model does the same.
- After a failed preparation of the artifact storage the result of its cleanup is not reported, so names can be left
  there without a cleanup error. With cleanup commands that work nothing is left exactly when nothing stood in the
  plan's way in the starting world (`Mine`): every container and volume under one of the five artifact names carries
  the plan's labels for it, and no container but the helpers and the workload mounts the volumes. Otherwise something
  is left, whatever works (`ContainerRun.Execute`). `StrangerInTheWay` gives such a world: one container without
  labels under the name of the import helper.
- Redaction looks for markers before it removes control characters, so a marker split by one is shown: the line
  `tok\U{0001}en=x` becomes `token=x` (`MarkerAppears`). `ShownWithMarker` shows it is the only way a marker is shown.
- The memory of assignments keeps the text `job:lease`, so `a:b` with `c` and `a` with `b:c` count as one assignment
  (`KeysCollide`). `SharedExactly` shows that an assignment shares its key exactly if one of its two identifiers holds a
  colon.
- A workspace is not cleaned up when a blocking call panics before a result was sent; `AssignmentRun.Run` states the
  cleanup count exactly, including that case.

## Model

| member | source | states |
|---|---|---|
| AssignmentProtocol.AssignmentRun.Run | crates/burd-agent/src/provider_job_worker.rs:770-1111 | In every interleaving with the watcher: at most one result, and one is sent exactly when no read saw the remote flag set and neither shutdown nor a lost call ended the job; between the last read of the remote flag as false and the result only cleanup; a set token is explained by the remote flag or by the worker; a stage that finishes with the token set is followed by no result. From the log alone, entry by entry: a success carries the metrics of the execution's entry and the artifacts of the upload's, and nothing went wrong and no cleanup failed; a failure carries the code of the failed cleanup, or else of the first thing that went wrong, kind by kind; a stored workspace is cleaned up exactly once, but for a lost call with nothing sent; the worker stops for a stuck workspace exactly when the remote flag was seen set and a cleanup, or a preparation's own, failed, and without a result it ends as lost or shut down exactly when the log holds that; events 1, 2, 3 and the three stages each in order and once at most, a stage only after its event was bound, a finish only after its start; success only with all three events bound |
| AssignmentProtocol.AssignmentRun.Interfere | crates/burd-agent/src/provider_job_worker.rs:602-636 | The watcher may act at any moment; it never clears a flag, and it sets the token only once the remote flag is set |
| AssignmentProtocol.AssignmentRun.RequestRemoteCancellation | crates/burd-agent/src/provider_job_worker.rs:618-636 | Afterwards both flags are set, and the token is explained by the remote flag |
| AssignmentProtocol.AssignmentRun.ReadRemoteFlag | crates/burd-agent/src/provider_job_worker.rs:614-616 | The read gives the flag as it is at that moment and is remembered; after a stage that finished with the token set it always gives true |
| AssignmentProtocol.AssignmentRun.ReportEvent | crates/burd-agent/src/provider_job_worker.rs:1421-1487 | One report of that number enters the log, whatever its answer, and an answer that is not for this job requests cancellation |
| AssignmentProtocol.AssignmentRun.RunStage | crates/burd-agent/src/provider_job_worker.rs:1279-1311 | The stage starts once, or not at all when the deadline had passed, and ends once; only shutdown and deadline make the worker cancel |
| AssignmentProtocol.AssignmentRun.AwaitStage | crates/burd-agent/src/provider_job_worker.rs:1279-1311 | A started stage ends once, and only by its own end does it finish, with a product of its own kind |
| AssignmentProtocol.AssignmentRun.GiveUpStage | crates/burd-agent/src/provider_job_worker.rs:1279-1311 | Giving up on a stage cancels it before it is logged as ended |
| AssignmentProtocol.AssignmentRun.CleanupWorkspace | crates/burd-agent/src/provider_job_worker.rs:1313-1321 | One cleanup exactly when there is a workspace, and its failure is returned |
| AssignmentProtocol.AssignmentRun.FinishRemoteCancellation | crates/burd-agent/src/provider_job_worker.rs:1251-1271 | Cleans up, sends nothing, and stops the worker exactly when the cleanup failed |
| AssignmentProtocol.AssignmentRun.FinishShutdown | crates/burd-agent/src/provider_job_worker.rs:1053-1057 | Cleans up and sends nothing |
| AssignmentProtocol.AssignmentRun.SubmitResult | crates/burd-agent/src/provider_job_worker.rs:1543-1583 | One result enters the log; what the control plane answers changes nothing |
| AssignmentProtocol.AssignmentRun.CleanupAndSubmitFailed | crates/burd-agent/src/provider_job_worker.rs:1323-1331 | Exactly one failed result is sent: the cleanup's failure if there is one, else the fault given |
| AssignmentProtocol.AssignmentRun.CleanupAndSubmitOutcome | crates/burd-agent/src/provider_job_worker.rs:1088-1111 | Exactly one result is sent: success with these metrics and artifacts if the cleanup worked or there was nothing to clean up, else a failure with the cleanup's code |
| AssignmentProtocol.AssignmentRun.PassEvent | crates/burd-agent/src/provider_job_worker.rs:884-921 | The job goes on only with the event bound and the flag read as false after it |
| AssignmentProtocol.AssignmentRun.PrepareWorkspace | crates/burd-agent/src/provider_job_worker.rs:826-882 | The workspace is stored exactly when preparation finished well; every other way out keeps all promises |
| AssignmentProtocol.AssignmentRun.JudgePreparation | crates/burd-agent/src/provider_job_worker.rs:839-882 | After preparation the job goes on only with the workspace stored and the flag read as false; every other way out keeps all promises |
| AssignmentProtocol.AssignmentRun.PassStage | crates/burd-agent/src/provider_job_worker.rs:922-973 | The job goes on only with the stage's own product and the flag read as false after it |
| AssignmentProtocol.AssignmentRun.FailStage | crates/burd-agent/src/provider_job_worker.rs:938-973 | A stage that ended without a product ends the job with cleanup, and with exactly one failed result, of the cleanup's failure or else the stage's, or none when the agent is shutting down |
| AssignmentProtocol.AssignmentRun.ExecuteJob | crates/burd-agent/src/provider_job_worker.rs:884-996 | Execution follows a bound event 2, and an outcome that breaks the executor's contract fails the job |
| AssignmentProtocol.AssignmentRun.UploadAndFinish | crates/burd-agent/src/provider_job_worker.rs:998-1111 | Upload follows a bound event 3, and every way out keeps all promises |
| AssignmentProtocol.CountedSubmissions | crates/burd-agent/src/provider_job_worker.rs:1489-1583 | A log with one counted result holds no two, and one with none holds none |
| AssignmentProtocol.QuietMeansJustReadFalse | crates/burd-agent/src/provider_job_worker.rs:905-1111 | A result sent while quiet came right after a read of the remote flag as false, with only cleanup between |
| AssignmentProtocol.TaintIsRemembered | crates/burd-agent/src/provider_job_worker.rs:1279-1311 | No result follows a stage that finished with the token set |
| AssignmentProtocol.InterruptionIsRemembered | crates/burd-agent/src/provider_job_worker.rs:770-1111 | The summary says a job was interrupted exactly when its log holds a read that saw the flag set, a shutdown or a lost call |
| AssignmentProtocol.ExecutionIsLicensed | crates/burd-agent/src/provider_job_worker.rs:884-935 | Over the whole log, execution starts once at most and only after a bound event 2 |
| AssignmentProtocol.BoundIsRemembered | crates/burd-agent/src/provider_job_worker.rs:1333-1370 | An event counted as bound has its bound acknowledgement in the log |
| AssignmentProtocol.SummaryPromises | crates/burd-agent/src/provider_job_worker.rs:770-1111 | What the summary says of a finished run holds of every pair of positions in its log |
| AssignmentProtocol.ResultFromLog | crates/burd-agent/src/provider_job_worker.rs:770-1111 | The result the summary gives is the one the log tells, entry by entry |
| AssignmentProtocol.FaultIsFirst | crates/burd-agent/src/provider_job_worker.rs:884-996 | The fault kept is the first thing that went wrong in the log: an event not bound, a stage past its deadline, a stage that failed, or an executor that broke its contract, each with its own code |
| AssignmentProtocol.MetricsAreLogged | crates/burd-agent/src/provider_job_worker.rs:974-996 | The metrics kept are those of an execution in the log that finished well and kept its contract |
| AssignmentProtocol.ProductsAreLogged | crates/burd-agent/src/provider_job_worker.rs:839-1087 | A workspace is held exactly when a preparation in the log stored one, and the artifacts kept are those of an upload in the log |
| AssignmentProtocol.CleanupFromLog | crates/burd-agent/src/provider_job_worker.rs:1053-1111 | What the summary counts as cleaned up are the cleanups in the log, one exactly where a workspace was stored and no call was lost before a result |
| AssignmentProtocol.EndFromLog | crates/burd-agent/src/provider_job_worker.rs:1251-1271 | How a job ends without a result is what its log says: a lost call, a shutdown, or a stuck workspace under remote cancellation |
| AssignmentProtocol.AllInOrder | crates/burd-agent/src/provider_job_worker.rs:826-1087 | Events and stages are in order in the log, each once at most; each stage starts after its own event was bound, and none finishes that was not started |
| CancellationWatcher.Watch | crates/burd-agent/src/provider_job_worker.rs:1123-1236 | For every script of replies, delays and stop signals, with the poll interval and the silence written out in nanoseconds: the answers heard are the replies of the first turns, each at its own time; no answer but the last decides anything, and the last decides by its kind: a directive to cancel, a broken contract and a failed request each their own reason; unauthorized, revoked or expired a lost session authority; a conflict or not found a lost assignment authority; a changed session or local state a lost local authority; any other refusal a lost control authority; a directive to go on and transport and server errors nothing. Otherwise it cancels only for silence, exactly when the silence since the last directive has lasted, and goes on only while that is still to come; it is stopped only by the worker's signal |
| CancellationWatcher.WatchFor | crates/burd-agent/src/provider_job_worker.rs:1136-1236 | The loop hears every reply it could hear and ends as the turns say, for any poll interval and silence; what that means is CancelledForCause, HeardOnTime and SignalsAreHeeded |
| CancellationWatcher.WatchIsDetermined | crates/burd-agent/src/provider_job_worker.rs:1136-1236 | The turns leave no choice: what Watch promises holds of one list of answers and one ending only |
| CancellationWatcher.NoAnswerMissed | crates/burd-agent/src/provider_job_worker.rs:1160-1236 | A watch does not end before an answer it could still hear |
| CancellationWatcher.CancelledForCause | crates/burd-agent/src/provider_job_worker.rs:1136-1249 | Kind by kind and without the reason function: what each answer decides, and that the watch cancels for it at the moment it came, or for the full silence since the last directive; no answer before it decided anything |
| CancellationWatcher.AuthorityIsTheLast | crates/burd-agent/src/provider_job_worker.rs:1146-1236 | The moment the silence is counted from is that of the last directive heard, or the start |
| CancellationWatcher.HeardOnTime | crates/burd-agent/src/provider_job_worker.rs:1136-1236 | Every answer is that of its own turn: asked for one poll interval after the answer before it, and there after the delay of its turn but within the silence |
| CancellationWatcher.SignalsAreHeeded | crates/burd-agent/src/provider_job_worker.rs:1144-1235 | The watch is stopped only by a signal in the turn it has come to, a signal while it sleeps after an answer that decides nothing always stops it, no turn before had one, and it goes on watching only once the turns are over |
| CancellationWatcher.FailuresRunOut | crates/burd-agent/src/provider_job_worker.rs:1146-1236 | From whatever answer on nothing but failures to answer comes, the watch cancels exactly when the silence since the last authoritative answer is over, if the turns last that long |
| ReplayMemory.RunWorker | crates/burd-agent/src/provider_job_worker.rs:466-548 | For every list of polls the runs are exactly the assignments that are new to the last `capacity` runs, up to the first whose run stops the worker, and the polls after it are not made |
| ReplayMemory.RunPoll | crates/burd-agent/src/provider_job_worker.rs:474-548 | One poll: an assignment runs exactly when it is not among the last `capacity` runs, is then remembered, and stops the worker exactly when its run does |
| ReplayMemory.RunsAreFresh | crates/burd-agent/src/provider_job_worker.rs:474-548 | No assignment runs that is among the last `capacity` runs |
| ReplayMemory.RunsAreAssignments | crates/burd-agent/src/provider_job_worker.rs:474-548 | Everything that runs was assigned, and everything assigned runs |
| ReplayMemory.NextRun | crates/burd-agent/src/provider_job_worker.rs:474-548 | Poll by poll: an assignment runs next exactly unless its job and lease are among the last `capacity` runs, nothing else runs, and it stops the worker exactly if it runs and its run says so |
| ReplayMemory.SharedExactly | crates/burd-agent/src/provider_job_worker.rs:519 | An assignment shares its key with another exactly if its job or its lease identifier holds a colon |
| ReplayMemory.KeysDiffer | crates/burd-agent/src/provider_job_worker.rs:519 | Two assignments whose job identifiers hold no colon have different keys |
| ReplayMemory.KeysCollide | crates/burd-agent/src/provider_job_worker.rs:519 | Two different assignments with one key |
| ReplayMemory.CompletedAssignments.constructor | crates/burd-agent/src/provider_job_worker.rs:1697-1703 | Empty, with a capacity of at least one |
| ReplayMemory.CompletedAssignments.Contains | crates/burd-agent/src/provider_job_worker.rs:1705-1707 | The set answers for the queue |
| ReplayMemory.CompletedAssignments.Insert | crates/burd-agent/src/provider_job_worker.rs:1709-1720 | A bounded first-in first-out queue of distinct keys: a known key changes nothing, a new one goes last, and at capacity exactly the oldest gives way |
| ReplayMemory.RepeatsAreFarApart | crates/burd-agent/src/provider_job_worker.rs:474-548 | Two runs of one key have at least `capacity` different other keys between them |
| DockerHost.OwnersAreUnique | crates/burd-agent/src/docker_nvidia_executor.rs:574-589 | No resource carries the labels of two assignments that differ in any identifier |
| DockerHost.OtherAssignmentsUntouched | crates/burd-agent/src/docker_nvidia_executor.rs:574-647 | Whatever a plan does, the containers and volumes of every other assignment are the same before and after, labels, mounts and settings included, even if the hashed names collide and whatever the two backends are called |
| DockerHost.NamesDiffer | crates/burd-agent/src/docker_runtime_backend.rs:1144-1150 | A plan's helper, volume and workload names are all different |
| DockerHost.NamesWrittenOut | crates/burd-agent/src/docker_runtime_backend.rs:1144-1150 | The five artifact names, written out |
| DockerHost.LabelsName | crates/burd-agent/src/docker_nvidia_executor.rs:574-589 | What belongs to an assignment carries its six identifiers, the backend and the mark of being managed, each under its own key |
| DockerHost.HelperIsAsked | crates/burd-agent/src/docker_runtime_backend.rs:1144-1297 | What Docker is asked for a helper is written out: its name, the labels of the plan with its role, and which volumes it mounts, where and whether to write |
| DockerHost.VolumeIsAsked | crates/burd-agent/src/docker_runtime_backend.rs:512-570 | What Docker is asked for a volume is written out: its name, the labels of the plan with its role, and its size, owner and mode |
| DockerHost.Docker.FindContainer | crates/burd-agent/src/docker_runtime_backend.rs:950-988 | An answer says truly whether the name is taken and with which labels; the look enters Docker's log |
| DockerHost.Docker.FindVolume | crates/burd-agent/src/docker_runtime_backend.rs:717-763 | The same for volumes |
| DockerHost.Docker.RemoveContainer | crates/burd-agent/src/docker_runtime_backend.rs:1099-1116 | Called only where what has the name is the plan's; it removes that container or fails, a failure may come after the removal, and the command enters Docker's log with its result |
| DockerHost.Docker.RemoveOwnedHelper | crates/burd-agent/src/docker_runtime_backend.rs:677-691 | It is looked up, and a removal is asked for exactly if it is there with the plan's labels; the result follows from those commands, and success means the name is free |
| DockerHost.Docker.RemoveOwnedVolume | crates/burd-agent/src/docker_runtime_backend.rs:693-715 | It is looked up, and a removal is asked for exactly if it is there with the plan's labels; the result follows from those commands, and success means the name is free and nothing mounted it |
| DockerHost.Docker.CleanupArtifactStorage | crates/burd-agent/src/docker_runtime_backend.rs:490-510 | Docker's log grows by exactly five attempts, the three helpers and the two volumes in order, whatever fails; the result is the first error among them; success leaves none of the five names, and with reliable removals it succeeds whenever the names are the plan's and nothing else mounts the volumes |
| DockerHost.Docker.CleanupHelpers | crates/burd-agent/src/docker_runtime_backend.rs:490-510 | One attempt for each helper, in order, the first error among them is kept, and only helpers go |
| DockerHost.Docker.CleanupVolumes | crates/burd-agent/src/docker_runtime_backend.rs:490-510 | One attempt for each volume, in order, an earlier error stays the first, and no container changes |
| DockerHost.Docker.ClearArtifactNames | crates/burd-agent/src/docker_runtime_backend.rs:411-435 | Success frees all five names |
| DockerHost.Docker.CreateArtifactVolume | crates/burd-agent/src/docker_runtime_backend.rs:512-570 | A volume that is accepted stands under the plan's name with the plan's labels, in memory, of the size that holds its content, with its own owner and mode; at most that volume is added |
| DockerHost.Docker.EnsureAnchorRunning | crates/burd-agent/src/docker_runtime_backend.rs:603-620 | Success means the anchor is there, is the plan's own and was just seen running |
| DockerHost.Docker.CreateArtifactAnchor | crates/burd-agent/src/docker_runtime_backend.rs:587-601 | At most the anchor is added; success means it was, with its labels and both volumes mounted, and was seen running |
| DockerHost.Docker.PrepareArtifactStorage | crates/burd-agent/src/docker_runtime_backend.rs:411-435 | From any world, success leaves both volumes as asked for and the anchor seen running last, Docker's log holds the creation of each, written out, and nothing stood in the plan's way to begin with; a failure means something in the log went wrong; no other container changes either way |
| DockerHost.Docker.CreateArtifactVolumes | crates/burd-agent/src/docker_runtime_backend.rs:423-433 | Success means both volumes are as asked for and no container changed |
| DockerHost.Docker.RunArtifactHelper | crates/burd-agent/src/docker_runtime_backend.rs:622-646 | It ends, and success means a start that worked, inspections at least 25 ms apart, or up to the deadline, that saw it running and then one that saw it exited with code 0 and no out-of-memory kill; a failure means something in the log went wrong |
| DockerHost.Docker.FinishArtifactHelper | crates/burd-agent/src/docker_runtime_backend.rs:648-662 | The helper is always removed, as cleanup with ten seconds of its own, and its own failure is reported before that of its removal |
| DockerHost.Docker.MoveThroughHelper | crates/burd-agent/src/docker_runtime_backend.rs:437-488 | Success means the anchor was seen running, the helper made with the name, labels and mounts written out for it, the files copied and the helper seen to exit well, in the order its direction asks for, and the helper removed; a failure means something in the log went wrong; whatever happens no other container changes |
| DockerHost.Docker.StageInputs | crates/burd-agent/src/docker_runtime_backend.rs:437-461 | Success with inputs means they were copied into a helper that then ran well; without inputs nothing happens; no other container changes |
| DockerHost.Docker.CollectOutputs | crates/burd-agent/src/docker_runtime_backend.rs:463-488 | Success with outputs means a helper ran well and they were then copied out of it; without outputs nothing happens; no other container changes |
| DockerHost.SweptIsGone | crates/burd-agent/src/docker_runtime_backend.rs:490-510 | Five removals without a failure leave none of the names, and were possible only because the names were the plan's and unmounted |
| DockerHost.ContainerGoes | crates/burd-agent/src/docker_runtime_backend.rs:677-691 | Removing a container of the plan's own clears nothing out of the plan's way and puts nothing there |
| DockerHost.ContainerComes | crates/burd-agent/src/docker_nvidia_executor.rs:137-160 | Creating a container of the plan's own clears nothing out of the plan's way and puts nothing there, whatever it mounts |
| DockerHost.VolumeGoes | crates/burd-agent/src/docker_runtime_backend.rs:693-715 | The same for removing a volume |
| DockerHost.VolumeComes | crates/burd-agent/src/docker_runtime_backend.rs:512-570 | The same for creating one |
| DockerHost.NoArtifactsIsMine | crates/burd-agent/src/docker_runtime_backend.rs:411-435 | Where none of the five names is taken, nothing stands in the plan's way, mounts included |
| DockerHost.StrangerInTheWay | crates/burd-agent/src/docker_nvidia_executor.rs:137-146 | A starting world from which no preparation can succeed and no cleanup can leave nothing |
| ContainerExecutor.ContainerRun.Execute | crates/burd-agent/src/docker_nvidia_executor.rs:105-195 | For every fault pattern: no command unless every check passed, and a refusal names the check that did not, the four conditions on the policy written out; the ledger is what Docker was asked to do, command for command; only what carries every plan label is touched; the run starts now, nothing starts before it, every active command starts before the nearest of lease, credential and timeout and gets 30 seconds, or 120 to move files, but none beyond it, cleanup gets no more than ten at a time, and nothing active starts after a cancellation; what was prepared is cleaned up exactly once and what was created is removed exactly once; a started container not seen to exit by itself is sent one TERM, and no other; success means every operation worked, the inputs were moved in before the start and the outputs out before the removal, and the exit last seen has code 0 and no out-of-memory kill; the workload is created under the plan's name with the plan's labels, with the input volume read-only and the output volume writable where there are artifacts, and with no mounts otherwise; a failure names its cause: the cancellation, the bound that was reached, the error of the first operation that failed, the bad exit, the taken name or the cleanup that failed, and the cleanup's only if one did; no artifact name is left after a cleanup that worked; nothing is left after success and after any failure of a created container but a failed cleanup; and, where cleanup commands work, nothing is left after a cleanup exactly when nothing stood in the plan's way in the starting world, a failed preparation included |
| ContainerExecutor.ContainerRun.RunBounded | crates/burd-agent/src/docker_nvidia_executor.rs:137-195 | The same accounting for the run proper: without an error nothing failed, and an error says what did |
| ContainerExecutor.ContainerRun.CreateAndRun | crates/burd-agent/src/docker_nvidia_executor.rs:150-195 | The same from the creation of the container on, which asks Docker for exactly the container the plan describes |
| ContainerExecutor.ContainerRun.PrepareOrCleanUp | crates/burd-agent/src/docker_nvidia_executor.rs:137-146 | The storage is prepared once; or it is cleaned up once and the failure of the preparation is reported |
| ContainerExecutor.ContainerRun.RunAndTell | crates/burd-agent/src/docker_nvidia_executor.rs:137-195 | The accounting of the run, read off the ledger: success means every operation worked, an error names the first that did not |
| ContainerExecutor.ContainerRun.RunCreated | crates/burd-agent/src/docker_nvidia_executor.rs:160-195 | A created container is removed once and its storage cleaned up once, on every way out, and one that was started is sent a TERM unless it was seen to exit |
| ContainerExecutor.ContainerRun.StopAndRemove | crates/burd-agent/src/docker_nvidia_executor.rs:186-195 | A container still running is sent a TERM, removed and cleaned up after, and the cause is reported unless any of that failed |
| ContainerExecutor.ContainerRun.RemoveStaleContainer | crates/burd-agent/src/docker_nvidia_executor.rs:197-215 | A container under the plan's name is removed only if its labels are the plan's; success means the name is free, and failure that the job was hindered or the name is another's |
| ContainerExecutor.ContainerRun.CleanupPartialCreate | crates/burd-agent/src/docker_nvidia_executor.rs:217-241 | One cleanup of the storage; success, or working cleanup commands, leave nothing |
| ContainerExecutor.ContainerRun.CleanupFailedPreparation | crates/burd-agent/src/docker_nvidia_executor.rs:137-146 | One cleanup of the storage; with working cleanup commands nothing is left exactly when nothing stood in the plan's way |
| ContainerExecutor.ContainerRun.RemoveCreatedContainer | crates/burd-agent/src/docker_nvidia_executor.rs:243-257 | One removal and one cleanup, both tried; success exactly when both worked, and then nothing is left |
| ContainerExecutor.ContainerRun.RemoveForCleanup | crates/burd-agent/src/docker_nvidia_executor.rs:230-250 | One removal of the workload is asked of Docker as cleanup and noted with its result, and success means the name is free |
| ContainerExecutor.ContainerRun.MonitorContainer | crates/burd-agent/src/docker_nvidia_executor.rs:259-294 | It ends, because every poll brings the nearest bound closer; what it adds to the log are inspections that each saw the container running, the policy's poll interval apart or up to the nearest bound, and at last one that saw it stopped, which is the result, or one that failed, or none because the job was cancelled or had reached a bound |
| ContainerExecutor.ContainerRun.TerminateRunningContainer | crates/burd-agent/src/docker_nvidia_executor.rs:296-334 | It ends, and the commands it adds to the log are one TERM, then inspections between the start and the force deadline that did not see the container stopped, and at last one that did or one KILL at or after that deadline; the looks are the poll interval apart, cut short by the graceful deadline while it is to come and then by the force deadline; each gets ten seconds, but only the KILL beyond the force deadline; both deadlines are the policy's seconds after the start; it succeeds exactly if the container was seen stopped or the KILL worked |
| ContainerExecutor.ContainerRun.SeesStopped | crates/burd-agent/src/docker_nvidia_executor.rs:296-334 | One inspection is made at that moment with that deadline and noted with what it saw and when it ended |
| ContainerExecutor.ContainerRun.SendSignal | crates/burd-agent/src/docker_nvidia_executor.rs:296-334 | One signal is given to Docker at that moment with that deadline and noted with its result |
| ContainerExecutor.ContainerRun.FinishExitedContainer | crates/burd-agent/src/docker_nvidia_executor.rs:336-384 | Outputs are collected before the removal; success needs both, exit code 0 and no out-of-memory kill |
| ContainerExecutor.ContainerRun.CollectLogsAndOutputs | crates/burd-agent/src/docker_nvidia_executor.rs:336-384 | Success means logs and outputs were taken while the container was still there; nothing else counted changes |
| ContainerExecutor.VerdictOn | crates/burd-agent/src/docker_nvidia_executor.rs:336-384 | Only an exit with code 0 and no out-of-memory kill is a success |
| ContainerExecutor.ContainerRun.RunActive | crates/burd-agent/src/docker_nvidia_executor.rs:386-396 | One command is given to Docker and noted with its result, or none because the job was cancelled or had reached a bound; it keeps to the bounds, its failure is the one its error and its bound ask for, and is never reported as a failed cleanup |
| ContainerExecutor.ContainerRun.Bridge | crates/burd-agent/src/docker_nvidia_executor.rs:398-408 | Staging and collecting keep to the bounds and change no other container, and success means the files were moved through a helper |
| ContainerExecutor.ContainerRun.Begin | crates/burd-agent/src/docker_nvidia_executor.rs:410-439 | Nothing starts once a bound is reached or the job is cancelled, and the error says which; what starts gets its own timeout or what is left to the nearest bound, whichever is less |
| ContainerExecutor.ActiveControl | crates/burd-agent/src/docker_nvidia_executor.rs:410-439 | A command's deadline is the nearer of its own timeout and the job's bounds, and the timeout code names the bound that binds |
| ContainerExecutor.ExecutionDeadlines | crates/burd-agent/src/docker_nvidia_executor.rs:488-511 | The bounds are the nearer of lease and credential expiry, and the start plus the timeout; missing or passed bounds are refused |
| ContainerExecutor.TallyCounts | crates/burd-agent/src/docker_nvidia_executor.rs:137-257 | The tally kept step by step is what counting over the whole log of commands gives |
| ContainerExecutor.CreatedAsPlanned | crates/burd-agent/src/docker_nvidia_executor.rs:150-160 | Every creation in the ledger is, in Docker's log, of the container the plan describes: its name, its labels and its mounts |
| ContainerExecutor.CauseIsFirst | crates/burd-agent/src/docker_nvidia_executor.rs:137-257 | The cause kept is the error of the first operation that failed, under the code its kind and its bound ask for, and the cleanup error is one that a cleanup in the log had |
| ContainerExecutor.LedgerTells | crates/burd-agent/src/docker_nvidia_executor.rs:137-257 | The same of the ledger of a run; and where nothing is to blame every operation in it worked |
| ContainerExecutor.StepsAreRemovals | crates/burd-agent/src/docker_nvidia_executor.rs:137-257 | The creations and removals of the workload that Docker was asked for are exactly the steps counted |
| ContainerExecutor.StepsAreCommands | crates/burd-agent/src/docker_nvidia_executor.rs:137-334 | The starts, log reads, TERMs and KILLs that Docker was given for the workload are exactly the steps counted |
| ContainerExecutor.FilesWereMoved | crates/burd-agent/src/docker_nvidia_executor.rs:336-408 | Where staging and collecting are counted, Docker's log holds the copies and the helpers' runs, in before the start and out before the removal |
| ContainerExecutor.CollectionCameFirst | crates/burd-agent/src/docker_nvidia_executor.rs:336-384 | The log shows outputs collected before any removal of the workload |
| ContainerExecutor.StagingCameFirst | crates/burd-agent/src/docker_nvidia_executor.rs:157-172 | The log shows inputs staged before any start that worked |
| ContainerExecutor.ExitWasSeen | crates/burd-agent/src/docker_nvidia_executor.rs:259-294 | The exit a run is judged by is one that an inspection in the log saw |
| SessionChannel.ResentExactlyAfterMisreport | crates/burd-agent/src/remote_session.rs:1522-1863 | Over any run, below the top of the range, a number accepted in a session is sent again exactly when the last event was a rejection whose number the server could not look up, and exactly then is the number not the next one |
| SessionChannel.NothingResentToTrueServer | crates/burd-agent/src/remote_session.rs:1522-1863 | If the server always looks its number up, every message carries the next number and no accepted number is sent again |
| SessionChannel.MisreportHappens | crates/burd-control-plane/src/http.rs:3706-3785 | A run in which an accepted number is sent again |
| SessionChannel.ConnectionsStartInStep | crates/burd-agent/src/remote_session.rs:862-937 | The saved number never exceeds the server's, and the first message of a connection carries the server's last number plus one |
| SessionChannel.SamplesAreContinuous | crates/burd-agent/src/remote_session.rs:1614-1863 | The batches accepted in a session are the samples 1, 2, 3, ... without gap or repeat; no batch exceeds 64 and fewer samples than a batch wait |
| SessionChannel.RunKeepsInv | crates/burd-agent/src/remote_session.rs:1522-1863 | After any run, buffer and counters of an open connection agree with the server's |
| SessionChannel.RunKeepsLog | crates/burd-agent/src/remote_session.rs:1522-1863 | After any run, every message in the log carries the number and the samples the server's state asks for |
| SessionChannel.FullBatchIsSent | crates/burd-agent/src/remote_session.rs:1748-1863 | After any run, a collection that together with the samples waiting makes a batch, or is forced, and is no more than 64, is sent in that turn, those waiting first, with the next number, and holds exactly the samples after those the server has |
| SessionChannel.SmallBatchWaits | crates/burd-agent/src/remote_session.rs:1748-1793 | After any run, a smaller collection sends nothing and waits, after those that waited before |
| SessionChannel.NothingElseIsSent | crates/burd-agent/src/remote_session.rs:1748-1793 | A telemetry turn that cannot send says nothing, and exactly which of them keep the connection |
| SessionChannel.HeartbeatIsSent | crates/burd-agent/src/remote_session.rs:1557-1613 | After any run with an open connection a heartbeat is sent, with the next number unless a rejection said to start over, and takes no samples; one that is not accepted ends the connection and changes nothing else |
| SessionChannel.ServerCounts | crates/burd-control-plane/src/http.rs:3706-3785 | The server counts the number and the samples of what it accepts, and of nothing else |
| SessionChannel.AcknowledgedIsSaved | crates/burd-agent/src/remote_session.rs:1794-1863 | An accepted message is saved, number and samples, exactly when its answer arrives and can be written, and exactly then the connection goes on, from what the server has |
| SessionChannel.RejectedTurnsTelemetryOff | crates/burd-agent/src/remote_session.rs:1794-1863 | A rejected batch: the answer's number is taken and saved, the samples are thrown away and no more telemetry is taken; without an answer the connection ends |
| SessionChannel.OpeningTakesTheServersCounts | crates/burd-agent/src/remote_session.rs:862-937 | Opening saves the server's counts, from zero for a renewed session, and a connection starts from them with nothing waiting |
| SessionChannel.ClosedIsSilent | crates/burd-agent/src/remote_session.rs:1522-1556 | Nothing is sent without a connection, and a dropped connection changes nothing else |
| SessionChannel.RunChannel | crates/burd-agent/src/remote_session.rs:1522-1729 | The imperative channel's log on every script is that of the runs the theorems above speak of |
| SessionChannel.ControlChannel.Connect | crates/burd-agent/src/remote_session.rs:862-937 | One opening of a connection, as the step function says; OpeningTakesTheServersCounts says what that is |
| SessionChannel.ControlChannel.SendHeartbeat | crates/burd-agent/src/remote_session.rs:1557-1613 | One heartbeat, as the step function says; HeartbeatIsSent and AcknowledgedIsSaved say what that is |
| SessionChannel.ControlChannel.SubmitTelemetry | crates/burd-agent/src/remote_session.rs:1748-1863 | One telemetry collection, as the step function says; FullBatchIsSent, SmallBatchWaits and NothingElseIsSent say what that is |
| SessionChannel.ControlChannel.SubmitBatch | crates/burd-agent/src/remote_session.rs:1794-1863 | One submission and its answer, as the step function says; AcknowledgedIsSaved and RejectedTurnsTelemetryOff say what that is |
| Lifecycle.WrittenPhases | crates/burd-agent/src/lifecycle.rs:88-115 | In every interleaving the phases written form a path of the graph, each reached only from the phases listed for it, and after Stopping, TerminalFailure or Stopped nothing else comes back |
| Lifecycle.NothingInvalidIsAsked | crates/burd-agent/src/remote_session.rs:1110-1189 | No transition that any process asks for is refused as invalid |
| Lifecycle.EndedRuns | crates/burd-agent/src/remote_session.rs:297-320 | A run that ends leaves Stopped after success and TerminalFailure after an error, exactly unless its last write failed; success comes only through Stopping |
| Lifecycle.ReadyGoesOnline | crates/burd-agent/src/remote_session.rs:1110-1189 | After any run, a connection that becomes ready brings the agent Online, written to the file; if it cannot be written the phase stays and the agent backs off |
| Lifecycle.WaitingReconnects | crates/burd-agent/src/remote_session.rs:1110-1189 | After any run, an agent whose wait is over is Connecting and attempts a connection again |
| Lifecycle.TopConnects | crates/burd-agent/src/remote_session.rs:1117-1134 | From the top of the loop the agent is Connecting and attempts a connection |
| Lifecycle.FailureDegrades | crates/burd-agent/src/remote_session.rs:1134-1162 | A failed connection makes the agent Degraded and wait, or TerminalFailure and return when the failure says to stop |
| Lifecycle.RestartClears | crates/burd-agent/src/remote_session.rs:1155-1172 | A session to be restarted is cleared before the wait, and an agent that cannot clear it fails for good |
| Lifecycle.OperatorStopsWell | crates/burd-agent/src/remote_session.rs:734-811 | Stopped by the operator, whatever it is doing, the agent writes Stopping, returns, waits for its workers and writes Stopped |
| Lifecycle.WorkerExitFails | crates/burd-agent/src/remote_session.rs:734-811 | A worker that gives up takes the agent down: the control loop is told to return and the run ends in TerminalFailure |
| Lifecycle.ReadyMeansConnected | crates/burd-agent/src/lifecycle.rs:311-337 | Readiness seen in any reachable state is that of a session past its ready point, never of one connecting, backing off or stopping |
| Lifecycle.EffectiveStatus | crates/burd-agent/src/lifecycle.rs:311-337 | Ready exactly when the phase is Online and the lock is held; a final phase, or any with a live process, is shown as it is, and one whose process is gone as Stopped, with the phase last seen beside it |
| Lifecycle.RunKeepsInv | crates/burd-agent/src/remote_session.rs:734-811 | In every reachable state the phase follows the control loop until something winds down |
| Lifecycle.LifecycleReporter.TransitionTo | crates/burd-agent/src/lifecycle.rs:88-115 | One transition: written before it is taken, dropped when winding down, refused otherwise; the file stays a path |
| Lifecycle.LifecycleReporter.constructor | crates/burd-agent/src/lifecycle.rs:72-86 | Starting, and written as such |
| Lifecycle.WindingLasts | crates/burd-agent/src/lifecycle.rs:352-363 | Along any path of the graph, winding down lasts and a terminal phase stays |
| LogTail.ReadTailIsExact | crates/burd-agent/src/docker_runtime_backend.rs:1894-1917 | For every chunking the buffer ends as exactly the last `limit` bytes, and the flag is raised exactly when more existed or one chunk filled the buffer |
| LogTail.ReadTailBounded | crates/burd-agent/src/docker_runtime_backend.rs:1894-1917 | For every chunking the bytes kept are exactly the last `limit` of everything read, flagged exactly when more existed or one chunk filled the buffer, and it fails exactly when a read fails |
| LogTail.BoundedTextTail | crates/burd-agent/src/docker_runtime_backend.rs:1919-1928 | The longest run of whole characters at the end that fits, for every text |
| LogTail.PiecesOfText | crates/burd-agent/src/docker_runtime_backend.rs:1940-1942 | The pieces are the text, cut just after its newlines and nowhere else |
| LogTail.PiecesSplit | crates/burd-agent/src/docker_runtime_backend.rs:1930-1942 | Cutting a text at a newline cuts its lines into those before and those after |
| LogTail.SuffixLines | crates/burd-agent/src/docker_runtime_backend.rs:1930-1938 | Dropping a text through a newline drops whole lines |
| LogTail.Trim | crates/burd-agent/src/docker_runtime_backend.rs:127-134 | For every text what is kept is, of the longest end that fits in 65,536 bytes, all of it or what follows its first newline, exactly when it was cut or flagged; exactly so many first lines are lost as the cut says |
| LogTail.CollectText | crates/burd-agent/src/docker_runtime_backend.rs:1894-1938 | From the chunks of an ASCII stream: flagged exactly when more than 64 KiB were written; the text is all of the stream, or what follows the first newline of its last 64 KiB, and the lines lost are counted exactly |
| LogTail.CollectLog | crates/burd-agent/src/docker_runtime_backend.rs:127-141 | The log has a line for each line of exactly that text, in order: the placeholder for a line with one of the seven words, in whatever case, and otherwise its characters that are no controls but the tab; flagged exactly when more than 64 KiB were written; and where tabs and line ends are the only controls it shows none of the words |
| LogTail.RedactionIsLineByLine | crates/burd-agent/src/docker_runtime_backend.rs:1940-1966 | For every text: redaction has a line for each of its lines, in order, joined by newlines, and each is the placeholder or what may be shown of it |
| LogTail.LinesAreThere | crates/burd-agent/src/docker_runtime_backend.rs:1940-1942 | The lines of a text, by position: each lies between two newlines, or the ends, and loses its line end, carriage return included |
| LogTail.JoinSplits | crates/burd-agent/src/docker_runtime_backend.rs:1964-1966 | Lines joined by newlines, cut again at newlines, are those lines |
| LogTail.MarkedIsSecret | crates/burd-agent/src/docker_runtime_backend.rs:1943-1956 | A line is marked exactly if it holds one of the seven words, in whatever case |
| LogTail.PlainTextLeaksNothing | crates/burd-agent/src/docker_runtime_backend.rs:1940-1966 | The redaction of a text whose only controls are tabs and line ends holds none of the words, not even across its lines |
| LogTail.WidthOfUtf8 | crates/burd-agent/src/docker_runtime_backend.rs:1919-1928 | The width of a character is the number of its UTF-8 bytes, which give it back |
| LogTail.TrimLoses | crates/burd-agent/src/docker_runtime_backend.rs:1930-1938 | Discarding the partial line loses the lines before the cut and the rest of the line cut in two, or one whole line where the cut falls on a line start, or everything when no newline follows; the other lines are kept whole |
| LogTail.PiecesAlongLine | crates/burd-agent/src/docker_runtime_backend.rs:1930-1942 | A stretch without a newline adds a line exactly when it begins one |
| LogTail.RedactedLine | crates/burd-agent/src/docker_runtime_backend.rs:1943-1963 | A line with a marker becomes the placeholder; any other keeps exactly its characters that are no controls but the tab, each once and in order; no redacted line holds a line break |
| LogTail.ShownInOrder | crates/burd-agent/src/docker_runtime_backend.rs:1959-1963 | The characters left are exactly those that may be shown, each at the place their rank gives |
| LogTail.ShownWithMarker | crates/burd-agent/src/docker_runtime_backend.rs:1943-1963 | A redacted line holds a marker exactly when the line holds none before its control characters are removed and one after; never when it has none to remove |
| LogTail.MarkerAppears | crates/burd-agent/src/docker_runtime_backend.rs:1943-1963 | A line whose marker is split by a control character is shown with it |
| GpuInventory.RunWorker | crates/burd-agent/src/gpu_inventory_publisher.rs:90-239 | Over any list of turns the log is exactly what the turns play out to: each event is that of its own turn, at most one snapshot is sent in a turn, and it is accepted exactly if that turn accepts it; what is sent was made for the binding read just before; what was not accepted is sent again unchanged unless the binding was seen to change; nothing already published is sent |
| GpuInventory.DeliverPending | crates/burd-agent/src/gpu_inventory_publisher.rs:190-237 | One submission of what is pending and what follows from its answer, as the step function says; the back-off counts the failures |
| GpuInventory.ProbeIfDue | crates/burd-agent/src/gpu_inventory_publisher.rs:131-182 | A due probe and what follows from it, as the step function says; the back-off counts the failures |
| GpuInventory.RunTurn | crates/burd-agent/src/gpu_inventory_publisher.rs:100-237 | One turn of the loop, as the step function says |
| GpuInventory.PlayIsSound | crates/burd-agent/src/gpu_inventory_publisher.rs:90-239 | After any turns all the promises about the log hold, what is pending is signed for its binding and is not already published, and the last publication is the last one accepted |
| GpuInventory.PendingIsSent | crates/burd-agent/src/gpu_inventory_publisher.rs:184-237 | A pending snapshot goes out, as it is, in the next turn that finds its binding both times, and is accepted exactly if that turn accepts it |
| GpuInventory.ChangeIsSent | crates/burd-agent/src/gpu_inventory_publisher.rs:131-237 | After any turns, what is found when it is time and is not what was published last is sent in that very turn |
| GpuInventory.KnownIsNotSent | crates/burd-agent/src/gpu_inventory_publisher.rs:135-182 | What was published last is not sent again; the next look comes a minute later and failures are forgotten |
| GpuInventory.AnswerDecides | crates/burd-agent/src/gpu_inventory_publisher.rs:190-237 | What becomes of a submission: accepted, it is published and the next look is a minute later; else it stays pending and one more failure counts, unless another binding is found meanwhile, and then it is dropped and looked for at once |
| GpuInventory.OtherBindingDrops | crates/burd-agent/src/gpu_inventory_publisher.rs:126-133 | A pending snapshot of another binding is dropped before anything is sent |
| GpuInventory.FailedLookCounts | crates/burd-agent/src/gpu_inventory_publisher.rs:138-175 | A look that brings nothing counts one more failure and publishes nothing, unless another binding is found meanwhile |
| GpuInventory.OtherwiseNothing | crates/burd-agent/src/gpu_inventory_publisher.rs:100-189 | Without a binding, or before it is time with nothing pending, nothing happens |
| GpuInventory.SteadyPublishesOnce | crates/burd-agent/src/gpu_inventory_publisher.rs:90-239 | While nothing changes the GPUs are published exactly once, in the first turn, in whatever order they are found |
| GpuInventory.AdjacentPublicationsDiffer | crates/burd-agent/src/gpu_inventory_publisher.rs:429-436 | Two publications accepted one after the other differ in binding or fingerprint |
| GpuInventory.RetriedUntilAccepted | crates/burd-agent/src/gpu_inventory_publisher.rs:125-132 | A snapshot sent until it is accepted is one and the same, however often |
| GpuInventory.SameFingerprint | crates/burd-agent/src/gpu_inventory_publisher.rs:295-360 | For every enumeration order and observation time the snapshot is made or refused alike, with the same fingerprint |
| GpuInventory.SortSorts | crates/burd-agent/src/gpu_inventory_publisher.rs:321-324 | What is published is what was collected, in order of index |
| GpuInventory.ArrangeIgnoresOrder | crates/burd-agent/src/gpu_inventory_publisher.rs:300-324 | GPUs with different indices are arranged alike whatever order they come in |
| GpuInventory.Prepare | crates/burd-agent/src/gpu_inventory_publisher.rs:295-360 | A snapshot is valid and signed for the binding it was made under |
| GpuInventory.SnapshotTells | crates/burd-agent/src/gpu_inventory_publisher.rs:295-360 | A snapshot shows every GPU found as it was found, once, in order of index, and no other, and its fingerprint is of exactly what it says |
| GpuInventory.PreparedExactly | crates/burd-protocol/src/gpu_inventory.rs:124-200 | A snapshot is made exactly when at most 32 GPUs, each publishable, have different indices and identifiers that differ in more than the case of their letters, the time is well formed, and the four identifiers are printable and not too long |
| GpuInventory.ChangeShows | crates/burd-agent/src/gpu_inventory_publisher.rs:295-360 | GPUs that are not the same make another fingerprint |
| GpuInventory.RetryBackoff.NextDelay | crates/burd-agent/src/gpu_inventory_publisher.rs:73-77 | 2, 4, 8, 16 and 32 seconds, then 60 from the sixth failure in a row on |
| ArtifactCopy.PlanTotals | crates/burd-agent/src/docker_nvidia_executor.rs:541-601 | A plan is accepted exactly when at most 32 artifacts all declare sizes that add up to no more than the limit, and then its saturating total is their exact sum |
| ArtifactCopy.SaturatingIsExactOrFull | crates/burd-agent/src/docker_nvidia_executor.rs:590-601 | The saturating total is the exact sum, or the largest u64 |
| ArtifactCopy.CheckedIsExact | crates/burd-agent/src/docker_nvidia_executor.rs:553-571 | The checked total is the exact sum, and is missing only if a size is or the sum overflows |
| ArtifactCopy.VolumeCapacity | crates/burd-agent/src/docker_runtime_backend.rs:1138-1142 | Within the limit a volume has room for its content and the overhead |
| ArtifactCopy.Directory.CopyDirectFiles | crates/burd-artifact-helper/src/main.rs:73-113 | No more than the maximum is ever written, whatever the sources turn out to hold; it succeeds exactly when every listed file can be copied in full into free names within both limits, and then exactly those files are there in full; what was there before is never changed |
| ArtifactCopy.Directory.RunHelper | crates/burd-artifact-helper/src/main.rs:17-57 | A file limit of none or more than 32 is refused before anything is copied; otherwise as CopyDirectFiles |
| ArtifactCopy.Directory.CopyOneFile | crates/burd-artifact-helper/src/main.rs:124-165 | The file is there in full, or nothing is, unless its removal fails too; never more than expected is written |
| ArtifactCopy.Directory.CopyContents | crates/burd-artifact-helper/src/main.rs:136-156 | The copy loop writes no more than expected and succeeds exactly when the source holds exactly that much and the destination takes it |
| ArtifactCopy.Directory.CopyEntry | crates/burd-artifact-helper/src/main.rs:91-111 | One listed file: copied exactly when it fits under its name and within the limit |
| ArtifactCopy.CopyForPlan | crates/burd-agent/src/docker_runtime_backend.rs:1164-1185 | The helper, given a plan's own total and count, writes no more than its artifacts declare, succeeds exactly when every listed file can be copied in full within both, and is not run without artifacts |

## Left out

- HTTP, WebSocket, process spawning, JSON, signing and hashing: their outcomes are choices of the environment.
- Bundle and identifier validation (`validated_assignment`, `validate_runtime_identifiers`, image policy): whether they pass is a choice.
- `provider_job_data_plane.rs`: downloads, uploads and the workspace on disk; only the outcome of a stage is modelled.
- A workspace whose preparation finishes after the worker gave up on it is never stored; the cleanup promises are about stored workspaces.
- Acceptance and its retries in `run_assignment`: the model starts from an accepted assignment.
- Whether a container runs is not stored in the Docker world; an inspection may answer anything.
- The reason strings of lifecycle failures: all kinds the agent uses are valid tokens, so their validation never fails in a transition.
- Reconnect back-off, credential refresh and proof scheduling in the connection loop: they decide when a step happens, not what it does.
- Log text that is not ASCII is covered by `Trim` and `BoundedTextTail`, but not the lossy decoding of bytes before them.
- The order in which listed artifacts are copied: it decides only which of them are there after a failure.
- File permissions, the paths of the artifact helper's directories, and where in a container a volume is mounted.
- `runtime_verification.rs`, `runtime_observation.rs`, the benchmark scores, the CLI and the local API: smaller repeats or single branches.
- Whether job and lease identifiers can hold a colon: their validation is a choice of the environment.
