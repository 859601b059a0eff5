/**
 One accepted provider job, run by the worker while a cancellation watcher runs beside it.

 The two share the remote-cancellation flag and the cancellation token.  `Interfere` is
 the watcher: it may take any of its steps before each atomic action of the worker, so a
 contract of `AssignmentRun.Run` speaks of every interleaving.  Every action is logged
 with the two flags as they stood when it happened.
 */
module AssignmentProtocol {
  import opened Outcome

  // The code of a provider-job execution error.
  datatype Fault =
    | StateReportingFailed
    | DeadlineExceeded
    | ExecutorContractInvalid
    | WorkspaceCleanupFailed
    | WorkspaceCleanupScopeInvalid
    | OtherFault(code: string)

  datatype Stage = Prepare | Execute | Upload

  // What a finished stage hands back.
  datatype Product =
    | Prepared(workspace: Option<string>)
    | Executed(metrics: string, metricsIsObject: bool, artifacts: seq<string>)
    | Uploaded(artifacts: seq<string>)

  datatype StageEnd =
    | Finished(result: Result<Product, Fault>)
    | StageShutdown
    | StageDeadline
    | StageTaskFailed

  // How the report of one job event came back.
  datatype ReportEnd = Bound | Unbound | RetryableError | FinalError | ReportAbandoned | ReportTaskFailed

  datatype Submission = Succeeded(metrics: string, artifacts: seq<string>) | Failed(fault: Fault)

  datatype Action =
    | ReadRemote
    | Report(number: nat, reportEnd: ReportEnd)
    | Start(stage: Stage)
    | WorkerCancel
    | End(ended: Stage, stageEnd: StageEnd)
    | Cleanup(failure: Option<Fault>)
    | Submit(result: Submission)

  datatype Event = Event(action: Action, remote: bool, token: bool)

  datatype Disposition = Continue | Shutdown | RemoteCleanupFailed | TaskFailed

  // ---------- What a log shows ----------

  // Over the first events of a log: the results the worker sent, and how its workspace cleanups
  // ended, in order.
  function Submissions(log: seq<Event>, n: nat): seq<Submission>
    requires n <= |log|
  {
    if n == 0 then []
    else Submissions(log, n - 1) + (if log[n - 1].action.Submit? then [log[n - 1].action.result] else [])
  }

  function Cleanups(log: seq<Event>, n: nat): seq<Option<Fault>>
    requires n <= |log|
  {
    if n == 0 then []
    else Cleanups(log, n - 1) + (if log[n - 1].action.Cleanup? then [log[n - 1].action.failure] else [])
  }

  // How far the job has come.
  datatype Progress = Progress(
    reports: seq<nat>,              // event numbers, in the order reported
    bound: set<nat>,                // those acknowledged by a bound response
    started: seq<Stage>,
    licensed: bool,                 // no stage started before its own event was bound, or finished unstarted
    product: Products,
    fault: Option<Fault>,           // what went wrong first
    halt: Halt,
    spoiled: bool,                  // preparation failed and could not clean up after itself
    once: bool)                     // nothing halted the job after it had been halted

  // Whether the agent's shutdown or a blocking call that was lost broke the job off.
  datatype Halt = Running | ShuttingDown | CallLost

  // What the stages that ended well handed back.
  datatype Products = Products(held: bool, metrics: Option<string>, artifacts: Option<seq<string>>)

  predicate Usable(p: Product) {
    p.Executed? ==> p.metricsIsObject && p.artifacts == []
  }

  function FaultOf(a: Action): Option<Fault> {
    match a
    case Report(_, Unbound) => Some(StateReportingFailed)
    case Report(_, RetryableError) => Some(StateReportingFailed)
    case Report(_, FinalError) => Some(StateReportingFailed)
    case End(_, StageDeadline) => Some(DeadlineExceeded)
    case End(_, Finished(Err(fault))) => Some(fault)
    case End(_, Finished(Ok(product))) => if Usable(product) then None else Some(ExecutorContractInvalid)
    case _ => None
  }

  function HaltOf(a: Action): Halt {
    match a
    case Report(_, ReportAbandoned) => ShuttingDown
    case Report(_, ReportTaskFailed) => CallLost
    case End(_, StageShutdown) => ShuttingDown
    case End(_, StageTaskFailed) => CallLost
    case _ => Running
  }

  // The event that announces a stage.
  function EventOf(stage: Stage): nat {
    match stage case Prepare => 1 case Execute => 2 case Upload => 3
  }

  predicate SpoilsPreparation(a: Action) {
    && a.End? && a.ended == Prepare && a.stageEnd.Finished? && a.stageEnd.result.Err?
    && IsCleanupFault(a.stageEnd.result.error)
  }

  function Gather(p: Products, a: Action): Products {
    match a
    case End(Prepare, Finished(Ok(Prepared(workspace)))) => p.(held := p.held || workspace.Some?)
    case End(Execute, Finished(Ok(Executed(metrics, _, _)))) => p.(metrics := Some(metrics))
    case End(Upload, Finished(Ok(Uploaded(artifacts)))) => p.(artifacts := Some(artifacts))
    case _ => p
  }

  function Advance(p: Progress, a: Action): Progress {
    Progress(
      if a.Report? then p.reports + [a.number] else p.reports,
      if a.Report? && a.reportEnd == Bound then p.bound + {a.number} else p.bound,
      if a.Start? then p.started + [a.stage] else p.started,
      && p.licensed && (a.Start? ==> EventOf(a.stage) in p.bound)
      && (a.End? && a.stageEnd.Finished? ==> a.ended in p.started),
      Gather(p.product, a),
      if p.fault.Some? then p.fault else FaultOf(a),
      if p.halt != Running then p.halt else HaltOf(a),
      p.spoiled || SpoilsPreparation(a),
      p.once && (p.halt != Running ==> HaltOf(a) == Running))
  }

  const NO_PROGRESS := Progress([], {}, [], true, Products(false, None, None), None, Running, false, true)

  function ProgressOf(log: seq<Event>, n: nat): Progress
    requires n <= |log|
  {
    if n == 0 then NO_PROGRESS else Advance(ProgressOf(log, n - 1), log[n - 1].action)
  }

  // What the flags have meant so far.
  datatype Guard = Guard(
    lastRead: bool,             // the remote flag when the worker last read it
    seen: bool,                 // some read found it set
    quiet: bool,                // last read as false, and nothing but cleanup since
    quietSubmissions: bool,     // every result was sent while quiet
    workerCancelled: bool,
    tainted: bool,              // a stage finished by itself with the token already set
    taintedSubmissions: bool)   // a result was sent after that

  function Note(g: Guard, e: Event): Guard {
    var a := e.action;
    Guard(
      if a.ReadRemote? then e.remote else g.lastRead,
      g.seen || SawRequest(e),
      if a.ReadRemote? then !e.remote else g.quiet && a.Cleanup?,
      g.quietSubmissions && (a.Submit? ==> g.quiet),
      g.workerCancelled || a.WorkerCancel?,
      g.tainted || FinishedCancelled(e),
      g.taintedSubmissions || (a.Submit? && g.tainted))
  }

  const NO_GUARD := Guard(false, false, false, true, false, false, false)

  function GuardOf(log: seq<Event>, n: nat): Guard
    requires n <= |log|
  {
    if n == 0 then NO_GUARD else Note(GuardOf(log, n - 1), log[n - 1])
  }

  lemma {:induction false} SummaryKept(log: seq<Event>, e: Event, n: nat)
    requires n <= |log|
    ensures ProgressOf(log + [e], n) == ProgressOf(log, n) && GuardOf(log + [e], n) == GuardOf(log, n)
    ensures Submissions(log + [e], n) == Submissions(log, n) && Cleanups(log + [e], n) == Cleanups(log, n)
  {
    if n > 0 {
      SummaryKept(log, e, n - 1);
    }
  }

  // What the job's result must say, worked out from the log alone: a failed cleanup
  // first, then whatever went wrong first, and only then success.
  function Verdict(p: Progress, cleanups: seq<Option<Fault>>): Option<Submission> {
    if cleanups != [] && cleanups[0].Some? then Some(Failed(cleanups[0].value))
    else if p.fault.Some? then Some(Failed(p.fault.value))
    else if p.product.metrics.Some? && p.product.artifacts.Some?
    then Some(Succeeded(p.product.metrics.value, p.product.artifacts.value))
    else None
  }

  predicate IsCleanupFault(f: Fault) {
    f == WorkspaceCleanupFailed || f == WorkspaceCleanupScopeInvalid
  }

  // The workspace could not be cleaned up: by the worker, or by a preparation that gave up.
  predicate CleanupFailed(p: Progress, cleanups: seq<Option<Fault>>) {
    (cleanups != [] && cleanups[0].Some?) || p.spoiled
  }

  // ---------- The promises, over a whole log ----------

  predicate IsSubmit(e: Event) { e.action.Submit? }

  predicate SubmitsAtMostOnce(log: seq<Event>, n: nat)
    requires n <= |log|
  {
    forall i, j | 0 <= i < j < n :: !(IsSubmit(log[i]) && IsSubmit(log[j]))
  }

  ghost predicate JustReadFalse(log: seq<Event>, j: nat)
    requires j <= |log|
  {
    exists i | 0 <= i < j ::
      && log[i].action == ReadRemote && !log[i].remote
      && forall k | i < k < j :: log[k].action.Cleanup?
  }

  // Between the read that found no cancellation and the result, only cleanup runs.
  ghost predicate SubmitsRightAfterReadingFalse(log: seq<Event>, n: nat)
    requires n <= |log|
  {
    forall j | 0 <= j < n && IsSubmit(log[j]) :: JustReadFalse(log, j)
  }

  ghost predicate CancelledByWorker(log: seq<Event>, i: nat)
    requires i <= |log|
  {
    exists j | 0 <= j < i :: log[j].action == WorkerCancel
  }

  ghost predicate TokenExplained(log: seq<Event>) {
    forall i | 0 <= i < |log| && log[i].token :: log[i].remote || CancelledByWorker(log, i)
  }

  predicate FinishedCancelled(e: Event) {
    e.action.End? && e.action.stageEnd.Finished? && e.token
  }

  // The worker read the remote flag and found it set.
  predicate SawRequest(e: Event) {
    e.action == ReadRemote && e.remote
  }

  // The agent's shutdown broke a report or a stage off.
  predicate ShutDown(a: Action) {
    (a.Report? && a.reportEnd == ReportAbandoned) || (a.End? && a.stageEnd == StageShutdown)
  }

  // A blocking call panicked.
  predicate Lost(a: Action) {
    (a.Report? && a.reportEnd == ReportTaskFailed) || (a.End? && a.stageEnd == StageTaskFailed)
  }

  // The job was seen to be cancelled, was broken off by a shutdown, or lost a blocking call.
  predicate Interrupts(e: Event) {
    SawRequest(e) || ShutDown(e.action) || Lost(e.action)
  }

  // A result is sent exactly by a job that nothing interrupted: a cancelled job is cleaned up
  // without a contradictory result, and no other job ends without one.
  predicate SendsUnlessInterrupted(log: seq<Event>) {
    (exists j | 0 <= j < |log| :: IsSubmit(log[j])) <==> (forall i | 0 <= i < |log| :: !Interrupts(log[i]))
  }

  // A stage that finished with the token set is followed by no result at all.
  predicate NoResultAfterCancelledFinish(log: seq<Event>, n: nat)
    requires n <= |log|
  {
    forall i, j | 0 <= i < j < n && FinishedCancelled(log[i]) :: !IsSubmit(log[j])
  }

  ghost predicate BoundBefore(log: seq<Event>, number: nat, j: nat)
    requires j <= |log|
  {
    exists i | 0 <= i < j :: log[i].action == Report(number, Bound)
  }

  ghost predicate ExecutesOnceAfterRunningAck(log: seq<Event>, n: nat)
    requires n <= |log|
  {
    && (forall j | 0 <= j < n && log[j].action == Start(Execute) :: BoundBefore(log, 2, j))
    && (forall i, j | 0 <= i < j < n :: !(log[i].action == Start(Execute) && log[j].action == Start(Execute)))
  }

  // ---------- What the result says, from the log alone ----------

  // The executor handed back metrics that are no object, or artifacts of its own.
  predicate BreaksContract(p: Product) {
    p.Executed? && (!p.metricsIsObject || p.artifacts != [])
  }

  // What goes wrong in a job, and the code each kind of it gives.
  predicate GoesWrong(a: Action, fault: Fault) {
    || (&& a.Report? && (a.reportEnd == Unbound || a.reportEnd == RetryableError || a.reportEnd == FinalError)
        && fault == StateReportingFailed)
    || (a.End? && a.stageEnd == StageDeadline && fault == DeadlineExceeded)
    || (a.End? && a.stageEnd == Finished(Err(fault)))
    || (&& a.End? && a.stageEnd.Finished? && a.stageEnd.result.Ok? && BreaksContract(a.stageEnd.result.value)
        && fault == ExecutorContractInvalid)
  }

  ghost predicate WentWell(log: seq<Event>, n: nat)
    requires n <= |log|
  {
    forall i, fault | 0 <= i < n :: !GoesWrong(log[i].action, fault)
  }

  // The first thing that went wrong.
  ghost predicate WentWrongFirst(log: seq<Event>, n: nat, fault: Fault)
    requires n <= |log|
  {
    exists i | 0 <= i < n :: GoesWrong(log[i].action, fault) && WentWell(log, i)
  }

  predicate FailsCleanup(a: Action) {
    a.Cleanup? && a.failure.Some?
  }

  ghost predicate AllCleaned(log: seq<Event>) {
    forall i | 0 <= i < |log| :: !FailsCleanup(log[i].action)
  }

  ghost predicate Logged(log: seq<Event>, a: Action) {
    exists i | 0 <= i < |log| :: log[i].action == a
  }

  // A failed cleanup is what is reported, before anything else; then what went wrong first; success
  // only if nothing did, with the metrics of the execution and the artifacts of the upload.
  ghost predicate ResultTold(log: seq<Event>, result: Submission) {
    match result
    case Succeeded(metrics, artifacts) =>
      && Logged(log, End(Execute, Finished(Ok(Executed(metrics, true, [])))))
      && Logged(log, End(Upload, Finished(Ok(Uploaded(artifacts)))))
      && AllCleaned(log) && WentWell(log, |log|)
    case Failed(fault) =>
      && (AllCleaned(log) ==> WentWrongFirst(log, |log|, fault))
      && (forall i | 0 <= i < |log| && FailsCleanup(log[i].action) :: log[i].action.failure == Some(fault))
  }

  ghost predicate ResultsTold(log: seq<Event>) {
    forall j | 0 <= j < |log| && IsSubmit(log[j]) :: ResultTold(log, log[j].action.result)
  }

  predicate StoresWorkspace(a: Action) {
    && a.End? && a.ended == Prepare && a.stageEnd.Finished? && a.stageEnd.result.Ok?
    && a.stageEnd.result.value.Prepared? && a.stageEnd.result.value.workspace.Some?
  }

  ghost predicate HasWorkspace(log: seq<Event>) {
    exists i | 0 <= i < |log| :: StoresWorkspace(log[i].action)
  }

  // A stored workspace is cleaned up once, but for a call lost before anything was sent.
  ghost predicate CleansOnce(log: seq<Event>, end: Disposition) {
    && (forall i, j | 0 <= i < j < |log| :: !(log[i].action.Cleanup? && log[j].action.Cleanup?))
    && ((exists i | 0 <= i < |log| :: log[i].action.Cleanup?)
        <==> HasWorkspace(log) && !(end == TaskFailed && forall j | 0 <= j < |log| :: !IsSubmit(log[j])))
  }

  // The workspace could not be removed: by the worker, or by a preparation that gave up on it.
  ghost predicate WorkspaceStuck(log: seq<Event>) {
    || !AllCleaned(log)
    || Logged(log, End(Prepare, Finished(Err(WorkspaceCleanupFailed))))
    || Logged(log, End(Prepare, Finished(Err(WorkspaceCleanupScopeInvalid))))
  }

  // How the job ends, where it ends without a result.
  ghost predicate EndTold(log: seq<Event>, end: Disposition) {
    var saw := exists i | 0 <= i < |log| :: SawRequest(log[i]);
    && (end == RemoteCleanupFailed <==> saw && WorkspaceStuck(log))
    && ((forall j | 0 <= j < |log| :: !IsSubmit(log[j])) ==>
          && (end == TaskFailed <==> exists i | 0 <= i < |log| :: Lost(log[i].action))
          && (end == Shutdown <==> !saw && exists i | 0 <= i < |log| :: ShutDown(log[i].action)))
  }

  // The events 1, 2 and 3 are reported in order, each at most once.
  predicate ReportsInOrder(log: seq<Event>, n: nat)
    requires n <= |log|
  {
    && (forall j | 0 <= j < n && log[j].action.Report? :: 1 <= log[j].action.number <= 3)
    && (forall i, j | 0 <= i < j < n && log[i].action.Report? && log[j].action.Report? ::
          log[i].action.number < log[j].action.number)
  }

  // Each stage starts only after its own event was acknowledged by a bound response.
  ghost predicate StartsAreLicensed(log: seq<Event>, n: nat)
    requires n <= |log|
  {
    && (forall j | 0 <= j < n && log[j].action == Start(Prepare) :: BoundBefore(log, 1, j))
    && (forall j | 0 <= j < n && log[j].action == Start(Execute) :: BoundBefore(log, 2, j))
    && (forall j | 0 <= j < n && log[j].action == Start(Upload) :: BoundBefore(log, 3, j))
  }

  // The stages start in order, each at most once, and none ends by itself that was not started.
  ghost predicate StagesInOrder(log: seq<Event>, n: nat)
    requires n <= |log|
  {
    && (forall i, j | 0 <= i < j < n && log[i].action.Start? && log[j].action.Start? ::
          || (log[i].action.stage == Prepare && log[j].action.stage != Prepare)
          || (log[i].action.stage == Execute && log[j].action.stage == Upload))
    && (forall j | 0 <= j < n && log[j].action.End? && log[j].action.stageEnd.Finished? ::
          StartedBefore(log, log[j].action.ended, j))
  }

  ghost predicate InOrder(log: seq<Event>, n: nat)
    requires n <= |log|
  {
    ReportsInOrder(log, n) && StartsAreLicensed(log, n) && StagesInOrder(log, n)
  }

  ghost predicate StartedBefore(log: seq<Event>, stage: Stage, j: nat)
    requires j <= |log|
  {
    exists i | 0 <= i < j :: log[i].action == Start(stage)
  }

  lemma {:induction false} FaultIsFirst(log: seq<Event>, n: nat)
    requires n <= |log|
    ensures ProgressOf(log, n).fault.None? <==> WentWell(log, n)
    ensures ProgressOf(log, n).fault.Some? ==> WentWrongFirst(log, n, ProgressOf(log, n).fault.value)
  {
    if n > 0 {
      FaultIsFirst(log, n - 1);
      var a := log[n - 1].action;
      forall fault ensures GoesWrong(a, fault) <==> FaultOf(a) == Some(fault) {}
      if ProgressOf(log, n).fault.Some? {
        assert GoesWrong(a, ProgressOf(log, n).fault.value) || !WentWell(log, n - 1);
      }
    }
  }

  lemma {:induction false} ProductsAreLogged(log: seq<Event>, n: nat)
    requires n <= |log|
    ensures var p := ProgressOf(log, n).product;
      && (p.held <==> exists i | 0 <= i < n :: StoresWorkspace(log[i].action))
      && (p.artifacts.Some? ==>
            exists i | 0 <= i < n :: log[i].action == End(Upload, Finished(Ok(Uploaded(p.artifacts.value)))))
  {
    if n > 0 {
      ProductsAreLogged(log, n - 1);
    }
  }

  lemma {:induction false} MetricsAreLogged(log: seq<Event>, n: nat)
    requires n <= |log| && ProgressOf(log, n).product.metrics.Some? && WentWell(log, n)
    ensures exists i | 0 <= i < n ::
      log[i].action == End(Execute, Finished(Ok(Executed(ProgressOf(log, n).product.metrics.value, true, []))))
  {
    var a := log[n - 1].action;
    assert !GoesWrong(a, ExecutorContractInvalid);
    if ProgressOf(log, n - 1).product.metrics == ProgressOf(log, n).product.metrics {
      MetricsAreLogged(log, n - 1);
    }
  }

  lemma {:induction false} CleanupsAreLogged(log: seq<Event>, n: nat)
    requires n <= |log|
    ensures Cleanups(log, n) != [] <==> exists i | 0 <= i < n :: log[i].action.Cleanup?
    ensures |Cleanups(log, n)| <= 1 ==>
      && (forall i | 0 <= i < n && log[i].action.Cleanup? :: Cleanups(log, n) == [log[i].action.failure])
      && (forall i, j | 0 <= i < j < n :: !(log[i].action.Cleanup? && log[j].action.Cleanup?))
  {
    if n > 0 {
      CleanupsAreLogged(log, n - 1);
    }
  }

  lemma {:induction false} SubmissionIsLogged(log: seq<Event>, n: nat)
    requires n <= |log| && |Submissions(log, n)| <= 1
    ensures forall i | 0 <= i < n && IsSubmit(log[i]) :: Submissions(log, n) == [log[i].action.result]
  {
    if n > 0 {
      SubmissionIsLogged(log, n - 1);
      CountedSubmissions(log, n - 1);
    }
  }

  lemma {:induction false} SpoiledIsLogged(log: seq<Event>, n: nat)
    requires n <= |log|
    ensures ProgressOf(log, n).spoiled <==> exists i | 0 <= i < n ::
      || log[i].action == End(Prepare, Finished(Err(WorkspaceCleanupFailed)))
      || log[i].action == End(Prepare, Finished(Err(WorkspaceCleanupScopeInvalid)))
    ensures GuardOf(log, n).seen <==> exists i | 0 <= i < n :: SawRequest(log[i])
  {
    if n > 0 {
      SpoiledIsLogged(log, n - 1);
    }
  }

  // What halted the job halted it once.
  lemma {:induction false} HaltIsLogged(log: seq<Event>, n: nat)
    requires n <= |log| && ProgressOf(log, n).once
    ensures ProgressOf(log, n).halt == ShuttingDown <==> exists i | 0 <= i < n :: ShutDown(log[i].action)
    ensures ProgressOf(log, n).halt == CallLost <==> exists i | 0 <= i < n :: Lost(log[i].action)
  {
    if n > 0 {
      HaltIsLogged(log, n - 1);
    }
  }

  lemma {:induction false} ReportsAreInOrder(log: seq<Event>, n: nat)
    requires n <= |log| && ProgressOf(log, n).reports <= [1, 2, 3]
    ensures forall j | 0 <= j < n && log[j].action.Report? ::
      1 <= log[j].action.number <= |ProgressOf(log, n).reports|
    ensures forall i, j | 0 <= i < j < n && log[i].action.Report? && log[j].action.Report? ::
      log[i].action.number < log[j].action.number
  {
    if n > 0 {
      var before, reports := ProgressOf(log, n - 1).reports, ProgressOf(log, n).reports;
      assert before <= reports;
      ReportsAreInOrder(log, n - 1);
      if log[n - 1].action.Report? {
        assert reports[|before|] == [1, 2, 3][|before|];
      }
    }
  }

  lemma {:induction false} StartsAreInOrder(log: seq<Event>, n: nat)
    requires n <= |log| && ProgressOf(log, n).started <= [Prepare, Execute, Upload] && ProgressOf(log, n).licensed
    ensures forall j | 0 <= j < n && log[j].action.Start? ::
      EventOf(log[j].action.stage) <= |ProgressOf(log, n).started| && BoundBefore(log, EventOf(log[j].action.stage), j)
    ensures forall i, j | 0 <= i < j < n && log[i].action.Start? && log[j].action.Start? ::
      EventOf(log[i].action.stage) < EventOf(log[j].action.stage)
  {
    if n > 0 {
      var before, started := ProgressOf(log, n - 1).started, ProgressOf(log, n).started;
      assert before <= started;
      StartsAreInOrder(log, n - 1);
      if log[n - 1].action.Start? {
        assert started[|before|] == [Prepare, Execute, Upload][|before|];
        BoundIsRemembered(log, n - 1, EventOf(log[n - 1].action.stage));
      }
    }
  }

  lemma {:induction false} FinishesWereStarted(log: seq<Event>, n: nat)
    requires n <= |log|
    ensures forall stage | stage in ProgressOf(log, n).started :: StartedBefore(log, stage, n)
    ensures ProgressOf(log, n).licensed ==>
      forall j | 0 <= j < n && log[j].action.End? && log[j].action.stageEnd.Finished? ::
        StartedBefore(log, log[j].action.ended, j)
  {
    if n > 0 {
      FinishesWereStarted(log, n - 1);
      forall stage | stage in ProgressOf(log, n).started ensures StartedBefore(log, stage, n) {
        if log[n - 1].action != Start(stage) {
          assert StartedBefore(log, stage, n - 1);
        }
      }
    }
  }

  // The order, spelled out.
  lemma {:induction false} AllInOrder(log: seq<Event>, n: nat)
    requires n <= |log| && ProgressOf(log, n).reports <= [1, 2, 3]
    requires ProgressOf(log, n).started <= [Prepare, Execute, Upload] && ProgressOf(log, n).licensed
    ensures InOrder(log, n)
  {
    assert ReportsInOrder(log, n) by {
      ReportsAreInOrder(log, n);
    }
    assert StartsAreLicensed(log, n) by {
      StartsAreInOrder(log, n);
    }
    assert StagesInOrder(log, n) by {
      StartsAreInOrder(log, n);
      FinishesWereStarted(log, n);
    }
  }

  lemma {:induction false} CountedSubmissions(log: seq<Event>, n: nat)
    requires n <= |log|
    ensures Submissions(log, n) != [] <==> exists i | 0 <= i < n :: IsSubmit(log[i])
    ensures |Submissions(log, n)| <= 1 ==> SubmitsAtMostOnce(log, n)
  {
    if n > 0 {
      CountedSubmissions(log, n - 1);
    }
  }

  lemma {:induction false} QuietMeansJustReadFalse(log: seq<Event>, n: nat)
    requires n <= |log|
    ensures GuardOf(log, n).quiet ==> JustReadFalse(log, n)
    ensures GuardOf(log, n).quietSubmissions ==> SubmitsRightAfterReadingFalse(log, n)
  {
    if n > 0 {
      QuietMeansJustReadFalse(log, n - 1);
      if GuardOf(log, n).quiet {
        if log[n - 1].action.Cleanup? {
          var i :| 0 <= i < n - 1 && log[i].action == ReadRemote && !log[i].remote
            && forall k | i < k < n - 1 :: log[k].action.Cleanup?;
          assert forall k | i < k < n :: log[k].action.Cleanup?;
        } else {
          assert log[n - 1].action == ReadRemote;
        }
      }
    }
  }

  lemma {:induction false} InterruptionIsRemembered(log: seq<Event>, n: nat)
    requires n <= |log|
    ensures GuardOf(log, n).seen || ProgressOf(log, n).halt != Running <==>
            exists i | 0 <= i < n :: Interrupts(log[i])
  {
    if n > 0 {
      InterruptionIsRemembered(log, n - 1);
    }
  }

  lemma {:induction false} TaintIsRemembered(log: seq<Event>, n: nat)
    requires n <= |log|
    ensures forall i | 0 <= i < n && FinishedCancelled(log[i]) :: GuardOf(log, n).tainted
    ensures !GuardOf(log, n).taintedSubmissions ==> NoResultAfterCancelledFinish(log, n)
  {
    if n > 0 {
      TaintIsRemembered(log, n - 1);
    }
  }

  lemma {:induction false} WorkerCancelIsRemembered(log: seq<Event>, n: nat)
    requires n <= |log|
    ensures GuardOf(log, n).workerCancelled ==> CancelledByWorker(log, n)
  {
    if n > 0 {
      WorkerCancelIsRemembered(log, n - 1);
    }
  }

  lemma {:induction false} BoundIsRemembered(log: seq<Event>, n: nat, number: nat)
    requires n <= |log|
    ensures number in ProgressOf(log, n).bound ==> BoundBefore(log, number, n)
  {
    if n > 0 {
      BoundIsRemembered(log, n - 1, number);
    }
  }

  lemma {:induction false} ExecutesOnce(prior: seq<Stage>)
    requires prior + [Execute] <= [Prepare, Execute, Upload]
    ensures Execute !in prior
  {
    assert (prior + [Execute])[|prior|] == [Prepare, Execute, Upload][|prior|];
    assert forall i | 0 <= i < |prior| :: prior[i] == (prior + [Execute])[i] == [Prepare, Execute, Upload][i];
  }

  lemma {:induction false} ExecutionIsLicensed(log: seq<Event>, n: nat)
    requires n <= |log|
    ensures forall i | 0 <= i < n && log[i].action == Start(Execute) :: Execute in ProgressOf(log, n).started
    ensures ProgressOf(log, n).licensed && ProgressOf(log, n).started <= [Prepare, Execute, Upload]
            ==> ExecutesOnceAfterRunningAck(log, n)
  {
    if n > 0 {
      ExecutionIsLicensed(log, n - 1);
      BoundIsRemembered(log, n - 1, 2);
      var started := ProgressOf(log, n).started;
      if ProgressOf(log, n).licensed && started <= [Prepare, Execute, Upload] {
        var prior := ProgressOf(log, n - 1).started;
        if log[n - 1].action == Start(Execute) {
          assert started == prior + [Execute];
          ExecutesOnce(prior);
        }
      }
    }
  }

  lemma {:induction false} ExplainedAppend(log: seq<Event>, e: Event)
    requires TokenExplained(log)
    requires e.token ==> e.remote || CancelledByWorker(log, |log|)
    ensures TokenExplained(log + [e])
  {
    var longer := log + [e];
    forall i | 0 <= i < |longer| && longer[i].token
      ensures longer[i].remote || CancelledByWorker(longer, i)
    {
      if !longer[i].remote {
        assert CancelledByWorker(log, i);
        var j :| 0 <= j < i && log[j].action == WorkerCancel;
        assert longer[j].action == WorkerCancel;
      }
    }
  }

  // A log with its summary, kept in step by `Append`.
  datatype Record = Record(
    log: seq<Event>, progress: Progress, guard: Guard, sent: seq<Submission>, cleaned: seq<Option<Fault>>)

  ghost predicate Faithful(r: Record) {
    && r.progress == ProgressOf(r.log, |r.log|) && r.guard == GuardOf(r.log, |r.log|)
    && r.sent == Submissions(r.log, |r.log|) && r.cleaned == Cleanups(r.log, |r.log|)
    && TokenExplained(r.log)
  }

  ghost const EMPTY_RECORD := Record([], NO_PROGRESS, NO_GUARD, [], [])

  type Journal = r: Record | Faithful(r) ghost witness EMPTY_RECORD

  method Append(j: Journal, e: Event) returns (r: Journal)
    requires e.token ==> e.remote || j.guard.workerCancelled
    ensures r.log == j.log + [e] && r.progress == Advance(j.progress, e.action) && r.guard == Note(j.guard, e)
    ensures r.sent == if e.action.Submit? then j.sent + [e.action.result] else j.sent
    ensures r.cleaned == if e.action.Cleanup? then j.cleaned + [e.action.failure] else j.cleaned
  {
    SummaryKept(j.log, e, |j.log|);
    WorkerCancelIsRemembered(j.log, |j.log|);
    ExplainedAppend(j.log, e);
    r := Record(j.log + [e], Advance(j.progress, e.action), Note(j.guard, e),
                if e.action.Submit? then j.sent + [e.action.result] else j.sent,
                if e.action.Cleanup? then j.cleaned + [e.action.failure] else j.cleaned);
  }

  // What the summary of a finished run promises about its whole log.
  lemma {:induction false} SummaryPromises(j: Journal)
    ensures |j.sent| <= 1 ==> SubmitsAtMostOnce(j.log, |j.log|)
    ensures (j.sent == [] <==> j.guard.seen || j.progress.halt != Running) ==> SendsUnlessInterrupted(j.log)
    ensures j.guard.quietSubmissions ==> SubmitsRightAfterReadingFalse(j.log, |j.log|)
    ensures !j.guard.taintedSubmissions ==> NoResultAfterCancelledFinish(j.log, |j.log|)
    ensures j.progress.licensed && j.progress.started <= [Prepare, Execute, Upload] ==>
      ExecutesOnceAfterRunningAck(j.log, |j.log|)
    ensures j.progress.licensed && j.progress.started <= [Prepare, Execute, Upload] ==>
      j.progress.reports <= [1, 2, 3] ==> InOrder(j.log, |j.log|)
    ensures forall number | number in j.progress.bound :: BoundBefore(j.log, number, |j.log|)
  {
    if j.progress.licensed && j.progress.started <= [Prepare, Execute, Upload] && j.progress.reports <= [1, 2, 3] {
      AllInOrder(j.log, |j.log|);
    }
    CountedSubmissions(j.log, |j.log|);
    InterruptionIsRemembered(j.log, |j.log|);
    QuietMeansJustReadFalse(j.log, |j.log|);
    TaintIsRemembered(j.log, |j.log|);
    ExecutionIsLicensed(j.log, |j.log|);
    forall number | number in j.progress.bound ensures BoundBefore(j.log, number, |j.log|) {
      BoundIsRemembered(j.log, |j.log|, number);
    }
  }

  // The result that the summary gives is the one the log tells.
  lemma {:induction false} ResultFromLog(j: Journal)
    requires |j.sent| <= 1 && |j.cleaned| <= 1
    requires j.sent != [] ==> Verdict(j.progress, j.cleaned) == Some(j.sent[0])
    ensures ResultsTold(j.log)
  {
    var log, n := j.log, |j.log|;
    forall k | 0 <= k < n && IsSubmit(log[k]) ensures ResultTold(log, log[k].action.result) {
      SubmissionIsLogged(log, n);
      CleanupsAreLogged(log, n);
      FaultIsFirst(log, n);
      VerdictIsTold(j);
    }
  }

  lemma {:induction false} VerdictIsTold(j: Journal)
    requires |j.sent| == 1 && |j.cleaned| <= 1 && Verdict(j.progress, j.cleaned) == Some(j.sent[0])
    ensures ResultTold(j.log, j.sent[0])
  {
    var log, n := j.log, |j.log|;
    CleanupsAreLogged(log, n);
    FaultIsFirst(log, n);
    ProductsAreLogged(log, n);
    if j.sent[0].Succeeded? {
      MetricsAreLogged(log, n);
    }
  }

  lemma {:induction false} CleanupFromLog(j: Journal, end: Disposition)
    requires |j.cleaned| == if j.progress.product.held && !(end == TaskFailed && j.sent == []) then 1 else 0
    ensures CleansOnce(j.log, end)
  {
    CleanupsAreLogged(j.log, |j.log|);
    ProductsAreLogged(j.log, |j.log|);
    CountedSubmissions(j.log, |j.log|);
  }

  lemma {:induction false} EndFromLog(j: Journal, end: Disposition)
    requires |j.cleaned| <= 1 && j.progress.once
    requires end == RemoteCleanupFailed <==> j.guard.seen && CleanupFailed(j.progress, j.cleaned)
    requires j.sent == [] ==>
      && (end == TaskFailed <==> j.progress.halt == CallLost)
      && (end == Shutdown <==> j.progress.halt == ShuttingDown && !j.guard.seen)
    ensures EndTold(j.log, end)
  {
    CleanupsAreLogged(j.log, |j.log|);
    SpoiledIsLogged(j.log, |j.log|);
    HaltIsLogged(j.log, |j.log|);
    CountedSubmissions(j.log, |j.log|);
  }

  // ---------- The worker ----------

  class AssignmentRun {
    var remote: bool                 // RemoteCancellationState, shared with the watcher
    var token: bool                  // JobCancellation, shared with the watcher and the stages
    var workspace: Option<string>
    var journal: Journal

    ghost predicate Valid()
      reads this
    {
      && (token ==> remote || journal.guard.workerCancelled)
      && (journal.guard.tainted ==> remote)
    }

    constructor ()
      ensures Valid() && journal.log == [] && !remote && !token && workspace == None
    {
      remote, token, workspace := false, false, None;
      journal := Record([], NO_PROGRESS, NO_GUARD, [], []);
    }

    // The watcher: it sets the remote flag, and the token only after it.
    method Interfere()
      requires Valid()
      modifies this`remote, this`token
      ensures Valid()
      ensures (old(remote) ==> remote) && (old(token) ==> token)
    {
      if * {
        remote := true;
      }
      if remote {
        if * {
          token := true;
        }
      }
    }

    // RemoteCancellationState::request, called here by the worker itself.
    method RequestRemoteCancellation()
      requires Valid()
      modifies this`remote, this`token
      ensures Valid() && remote && token
    {
      remote := true;
      token := true;
    }

    // One atomic action of the worker, after any number of steps of the watcher.
    method Act(a: Action)
      requires Valid()
      requires a.End? && a.stageEnd.Finished? ==> !journal.guard.workerCancelled
      modifies this`remote, this`token, this`journal
      ensures Valid() && (old(remote) ==> remote)
      ensures journal.log == old(journal.log) + [Event(a, remote, token)]
      ensures journal.progress == Advance(old(journal.progress), a)
      ensures journal.guard == Note(old(journal.guard), Event(a, remote, token))
      ensures journal.sent == if a.Submit? then old(journal.sent) + [a.result] else old(journal.sent)
      ensures journal.cleaned == if a.Cleanup? then old(journal.cleaned) + [a.failure] else old(journal.cleaned)
    {
      Interfere();
      journal := Append(journal, Event(a, remote, token));
    }

    method ReadRemoteFlag() returns (requested: bool)
      requires Valid()
      modifies this`remote, this`token, this`journal
      ensures Valid() && requested == remote
      ensures journal.progress == old(journal.progress)
      ensures journal.sent == old(journal.sent) && journal.cleaned == old(journal.cleaned)
      ensures journal.guard
           == old(journal.guard).(
                lastRead := requested, seen := old(journal.guard.seen) || requested, quiet := !requested)
      ensures journal.guard.tainted ==> requested
    {
      Act(ReadRemote);
      requested := remote;
    }

    // report_bound_event: a fatal or unbound answer makes the worker request cancellation itself.
    method ReportEvent(number: nat) returns (end: ReportEnd)
      requires Valid()
      modifies this`remote, this`token, this`journal
      ensures Valid() && journal.sent == old(journal.sent) && journal.cleaned == old(journal.cleaned)
      ensures journal.progress == Advance(old(journal.progress), Report(number, end))
      ensures journal.guard == old(journal.guard).(quiet := false)
      ensures end == Unbound || end == FinalError ==> remote
    {
      end := *;
      Act(Report(number, end));
      if end == Unbound || end == FinalError {
        RequestRemoteCancellation();
      }
    }

    // The worker gives up on a running stage: it sets the token, then waits out the grace period.
    method GiveUpStage(stage: Stage, end: StageEnd)
      requires Valid() && (end == StageShutdown || end == StageDeadline)
      modifies this`remote, this`token, this`journal
      ensures Valid() && journal.sent == old(journal.sent) && journal.cleaned == old(journal.cleaned)
      ensures journal.progress == Advance(old(journal.progress), End(stage, end))
      ensures journal.guard == old(journal.guard).(quiet := false, workerCancelled := true)
    {
      Act(WorkerCancel);
      token := true;
      Act(End(stage, end));
    }

    // run_provider_stage: `late` says the deadline had passed before the stage could start.
    method RunStage(stage: Stage) returns (end: StageEnd, late: bool)
      requires Valid() && !journal.guard.workerCancelled
      modifies this`remote, this`token, this`journal
      ensures Valid() && journal.sent == old(journal.sent) && journal.cleaned == old(journal.cleaned)
      ensures late ==> end == StageDeadline
      ensures journal.progress
           == Advance(
                if late then old(journal.progress) else Advance(old(journal.progress), Start(stage)), End(stage, end))
      ensures journal.guard.quietSubmissions == old(journal.guard.quietSubmissions)
      ensures journal.guard.taintedSubmissions == old(journal.guard.taintedSubmissions)
      ensures journal.guard.lastRead == old(journal.guard.lastRead) && journal.guard.seen == old(journal.guard.seen)
      ensures end.Finished? ==> !journal.guard.workerCancelled
      ensures end.Finished? && end.result.Ok? ==> ProductOf(stage, end.result.value)
    {
      late := *;
      if late {
        end := StageDeadline;
        Act(End(stage, end));
        return;
      }
      Act(Start(stage));
      end := AwaitStage(stage);
    }

    // The stage runs by itself, or the worker gives up on it.
    method AwaitStage(stage: Stage) returns (end: StageEnd)
      requires Valid() && !journal.guard.workerCancelled
      modifies this`remote, this`token, this`journal
      ensures Valid() && journal.sent == old(journal.sent) && journal.cleaned == old(journal.cleaned)
      ensures journal.progress == Advance(old(journal.progress), End(stage, end))
      ensures journal.guard.quietSubmissions == old(journal.guard.quietSubmissions)
      ensures journal.guard.taintedSubmissions == old(journal.guard.taintedSubmissions)
      ensures journal.guard.lastRead == old(journal.guard.lastRead) && journal.guard.seen == old(journal.guard.seen)
      ensures end.Finished? ==> !journal.guard.workerCancelled
      ensures end.Finished? && end.result.Ok? ==> ProductOf(stage, end.result.value)
    {
      end := *;
      if end.StageShutdown? || end.StageDeadline? {
        GiveUpStage(stage, end);
        return;
      }
      if end.Finished? && end.result.Ok? && !ProductOf(stage, end.result.value) {
        end := StageTaskFailed;
      }
      Act(End(stage, end));
    }

    // cleanup_assignment_workspace: nothing to do without a stored workspace.
    method CleanupWorkspace() returns (failure: Option<Fault>)
      requires Valid()
      modifies this`remote, this`token, this`journal
      ensures Valid() && journal.sent == old(journal.sent)
      ensures journal.progress == old(journal.progress) && journal.guard == old(journal.guard)
      ensures journal.cleaned == if workspace.Some? then old(journal.cleaned) + [failure] else old(journal.cleaned)
      ensures workspace.None? ==> failure.None?
    {
      failure := None;
      if workspace.Some? {
        failure := *;
        Act(Cleanup(failure));
      }
    }

    // Nothing has been sent or cleaned up yet, and everything so far was in order.
    ghost predicate Underway()
      reads this
    {
      && Valid() && journal.sent == [] && journal.cleaned == []
      && workspace.Some? == journal.progress.product.held
      && journal.progress.reports <= [1, 2, 3]
      && journal.progress.started <= [Prepare, Execute, Upload]
      && journal.progress.licensed && journal.progress.once
      && journal.guard.quietSubmissions && !journal.guard.taintedSubmissions
      && journal.guard.seen == journal.guard.lastRead
    }

    // What every way out of the assignment leaves behind.
    ghost predicate Kept(end: Disposition)
      reads this
    {
      && Valid()
      && workspace.Some? == journal.progress.product.held
      && journal.progress.reports <= [1, 2, 3]
      && journal.progress.started <= [Prepare, Execute, Upload]
      && journal.progress.licensed && journal.progress.once
      && journal.guard.quietSubmissions && !journal.guard.taintedSubmissions
      && |journal.sent| <= 1
      && (journal.sent != [] ==> Verdict(journal.progress, journal.cleaned) == Some(journal.sent[0]))
      && (journal.sent != [] && journal.sent[0].Succeeded? ==> journal.progress.bound == {1, 2, 3})
      && |journal.cleaned|
         == (if journal.progress.product.held && !(end == TaskFailed && journal.sent == []) then 1 else 0)
      && (journal.guard.lastRead <==> end == RemoteCleanupFailed || (end == Continue && journal.sent == []))
      && journal.guard.seen == journal.guard.lastRead
      && (journal.sent == [] <==> journal.guard.seen || journal.progress.halt != Running)
      && (end == RemoteCleanupFailed <==> journal.guard.lastRead && CleanupFailed(journal.progress, journal.cleaned))
      // Without a result the log says why: the job was cancelled remotely, shut down, or a call was lost.
      && (journal.sent == [] ==>
            && (end == TaskFailed <==> journal.progress.halt == CallLost)
            && (end == Shutdown <==> journal.progress.halt == ShuttingDown && !journal.guard.lastRead))
    }

    method FinishRemoteCancellation() returns (end: Disposition)
      requires Underway() && journal.guard.lastRead && journal.progress.halt != CallLost
      requires !journal.progress.spoiled
      modifies this`remote, this`token, this`journal
      ensures Kept(end) && journal.sent == []
      ensures end == if journal.cleaned != [] && journal.cleaned[0].Some? then RemoteCleanupFailed else Continue
    {
      var failure := CleanupWorkspace();
      end := if failure.Some? then RemoteCleanupFailed else Continue;
    }

    // The way out when the agent shuts down: clean up, whatever that gives, and send nothing.
    method FinishShutdown() returns (end: Disposition)
      requires Underway() && !journal.guard.lastRead && journal.progress.halt == ShuttingDown
      modifies this`remote, this`token, this`journal
      ensures Kept(end) && end == Shutdown && journal.sent == []
    {
      var _ := CleanupWorkspace();
      end := Shutdown;
    }

    // submit_result_best_effort: the answer is only logged, so any answer ends the same way.
    method SubmitResult(result: Submission) returns (end: Disposition)
      requires Valid() && journal.guard.quiet && !journal.guard.tainted && journal.sent == []
      requires journal.guard.quietSubmissions && !journal.guard.taintedSubmissions
      modifies this`remote, this`token, this`journal
      ensures Valid() && journal.sent == [result]
      ensures journal.cleaned == old(journal.cleaned) && journal.progress == old(journal.progress)
      ensures journal.guard == old(journal.guard).(quiet := false)
      ensures end != RemoteCleanupFailed
    {
      Act(Submit(result));
      if * {
        end := Shutdown;
      } else if * {
        end := TaskFailed;
      } else {
        end := Continue;
      }
    }

    // cleanup_or_replace, then submit_failed_best_effort.
    method CleanupAndSubmitFailed(original: Fault) returns (end: Disposition)
      requires Underway() && journal.progress.fault == Some(original) && journal.progress.halt == Running
      requires journal.guard.quiet && !journal.guard.lastRead && !journal.guard.tainted
      modifies this`remote, this`token, this`journal
      ensures Kept(end) && end != RemoteCleanupFailed
      ensures journal.sent == [if journal.cleaned != [] && journal.cleaned[0].Some?
                               then Failed(journal.cleaned[0].value) else Failed(original)]
    {
      var failure := CleanupWorkspace();
      end := SubmitResult(Failed(if failure.Some? then failure.value else original));
    }

    // The last steps of a job that went well.
    method CleanupAndSubmitOutcome(metrics: string, artifacts: seq<string>) returns (end: Disposition)
      requires Underway() && journal.progress.bound == {1, 2, 3}
      requires journal.progress.fault == None && journal.progress.halt == Running
      requires journal.progress.product.metrics == Some(metrics)
      requires journal.progress.product.artifacts == Some(artifacts)
      requires journal.guard.quiet && !journal.guard.lastRead && !journal.guard.tainted
      modifies this`remote, this`token, this`journal
      ensures Kept(end) && end != RemoteCleanupFailed
      ensures journal.sent == [if journal.cleaned != [] && journal.cleaned[0].Some?
                               then Failed(journal.cleaned[0].value) else Succeeded(metrics, artifacts)]
    {
      var failure := CleanupWorkspace();
      if failure.Some? {
        end := SubmitResult(Failed(failure.value));
      } else {
        end := SubmitResult(Succeeded(metrics, artifacts));
      }
    }

    // The job has come this far without a fault, and no cancellation was seen.
    ghost predicate Reached(bound: set<nat>, reports: seq<nat>, started: seq<Stage>, metrics: Option<string>)
      reads this
    {
      && journal.progress.bound == bound && journal.progress.reports == reports && journal.progress.started == started
      && journal.progress.fault == None && journal.progress.halt == Running && !journal.progress.spoiled
      && journal.progress.product.metrics == metrics
      && journal.guard.quiet && !journal.guard.lastRead && !journal.guard.tainted && !journal.guard.workerCancelled
    }

    // Report one event and act on the answer; None means the job goes on.
    method PassEvent(number: nat) returns (end: Option<Disposition>)
      requires Underway() && journal.progress.reports + [number] <= [1, 2, 3] && !journal.progress.spoiled
      requires journal.progress.fault == None && journal.progress.halt == Running
      requires !journal.guard.workerCancelled && !journal.guard.lastRead
      modifies this`remote, this`token, this`journal
      ensures end.Some? ==> Kept(end.value)
      ensures end.None? ==> Underway() && journal.progress == Advance(old(journal.progress), Report(number, Bound))
      ensures end.None? ==>
        && journal.guard.quiet && !journal.guard.lastRead
        && !journal.guard.tainted && !journal.guard.workerCancelled
    {
      var report := ReportEvent(number);
      if report == ReportAbandoned {
        var d := FinishShutdown();
        return Some(d);
      } else if report == ReportTaskFailed {
        return Some(TaskFailed);
      }
      var requested := ReadRemoteFlag();
      if requested {
        var d := FinishRemoteCancellation();
        return Some(d);
      }
      if report != Bound {
        var d := CleanupAndSubmitFailed(StateReportingFailed);
        return Some(d);
      }
      return None;
    }

    // run_accepted_assignment, up to and including the workspace it prepares.
    method Provision() returns (end: Option<Disposition>)
      requires Underway() && journal.progress == NO_PROGRESS && journal.guard == NO_GUARD
      requires workspace == None
      modifies this
      ensures end.Some? ==> Kept(end.value)
      ensures end.None? ==> Underway() && Reached({1}, [1], [Prepare], None)
    {
      var requested := ReadRemoteFlag();
      if requested {
        var d := FinishRemoteCancellation();
        return Some(d);
      }
      end := PassEvent(1);
      if end.None? {
        end := PrepareWorkspace();
      }
    }

    method PrepareWorkspace() returns (end: Option<Disposition>)
      requires Underway() && Reached({1}, [1], [], None) && workspace == None
      modifies this
      ensures end.Some? ==> Kept(end.value)
      ensures end.None? ==> Underway() && Reached({1}, [1], [Prepare], None)
    {
      var prepared, late := RunStage(Prepare);
      if prepared.StageShutdown? {
        return Some(Shutdown);
      } else if prepared.StageTaskFailed? {
        return Some(TaskFailed);
      } else if prepared.Finished? && prepared.result.Ok? {
        workspace := prepared.result.value.workspace;
      }
      end := JudgePreparation(prepared);
    }

    method JudgePreparation(prepared: StageEnd) returns (end: Option<Disposition>)
      requires Underway() && !journal.guard.lastRead && (prepared.Finished? || prepared.StageDeadline?)
      requires journal.progress.bound == {1} && journal.progress.reports == [1] && journal.progress.halt == Running
      requires journal.progress.product.metrics == None && journal.progress.fault == FaultOf(End(Prepare, prepared))
      requires prepared.Finished? ==> journal.progress.started == [Prepare] && !journal.guard.workerCancelled
      requires prepared.Finished? && prepared.result.Ok? ==> prepared.result.value.Prepared?
      requires workspace.Some? ==> prepared.Finished? && prepared.result.Ok?
      requires journal.progress.spoiled == SpoilsPreparation(End(Prepare, prepared))
      modifies this`remote, this`token, this`journal
      ensures end.Some? ==> Kept(end.value)
      ensures end.None? ==> Underway() && Reached({1}, [1], [Prepare], None)
    {
      var requested := ReadRemoteFlag();
      if requested {
        if prepared.Finished? && prepared.result.Err? && IsCleanupFault(prepared.result.error) {
          return Some(RemoteCleanupFailed);
        }
        var d := FinishRemoteCancellation();
        return Some(d);
      }
      if prepared.Finished? && prepared.result.Ok? {
        return None;
      }
      var d := FailStage(prepared);
      return Some(d);
    }

    // A stage that runs with the workspace in place: execution or upload.
    method PassStage(stage: Stage) returns (end: Option<Disposition>, product: Product)
      requires Underway() && journal.progress.started + [stage] <= [Prepare, Execute, Upload] && stage != Prepare
      requires journal.progress.fault == None && journal.progress.halt == Running && !journal.progress.spoiled
      requires EventOf(stage) in journal.progress.bound
      requires !journal.guard.workerCancelled && !journal.guard.lastRead
      modifies this`remote, this`token, this`journal
      ensures end.Some? ==> Kept(end.value)
      ensures end.None? ==>
        && Underway() && ProductOf(stage, product)
        && journal.progress == Advance(Advance(old(journal.progress), Start(stage)), End(stage, Finished(Ok(product))))
        && journal.guard.quiet && !journal.guard.lastRead && !journal.guard.tainted && !journal.guard.workerCancelled
    {
      product := Uploaded([]);
      ghost var started := journal.progress.started;
      var stageEnd, late := RunStage(stage);
      assert (started + [stage])[|started|] == stage;
      if stageEnd.StageTaskFailed? {
        return Some(TaskFailed), product;
      }
      var requested := ReadRemoteFlag();
      if requested {
        var d := FinishRemoteCancellation();
        return Some(d), product;
      }
      if stageEnd.Finished? && stageEnd.result.Ok? {
        return None, stageEnd.result.value;
      }
      var d := FailStage(stageEnd);
      return Some(d), product;
    }

    // A stage that ended without a product.
    method FailStage(stageEnd: StageEnd) returns (end: Disposition)
      requires Underway() && !journal.guard.lastRead && journal.guard.quiet && !journal.guard.tainted
      requires !stageEnd.StageTaskFailed? && (stageEnd.Finished? ==> stageEnd.result.Err?)
      requires journal.progress.halt == if stageEnd.StageShutdown? then ShuttingDown else Running
      requires stageEnd.StageDeadline? ==> journal.progress.fault == Some(DeadlineExceeded)
      requires stageEnd.Finished? ==> journal.progress.fault == Some(stageEnd.result.error)
      modifies this`remote, this`token, this`journal
      ensures Kept(end)
      ensures stageEnd.StageShutdown? ==> end == Shutdown && journal.sent == []
      ensures !stageEnd.StageShutdown? ==>
        var fault := if stageEnd.StageDeadline? then DeadlineExceeded else stageEnd.result.error;
        journal.sent == [if journal.cleaned != [] && journal.cleaned[0].Some?
                         then Failed(journal.cleaned[0].value) else Failed(fault)]
    {
      match stageEnd {
        case StageShutdown => end := FinishShutdown();
        case StageDeadline => end := CleanupAndSubmitFailed(DeadlineExceeded);
        case Finished(Err(fault)) => end := CleanupAndSubmitFailed(fault);
      }
    }

    // The running event and the execution.
    method ExecuteJob() returns (end: Option<Disposition>, metrics: string)
      requires Underway() && Reached({1}, [1], [Prepare], None)
      modifies this
      ensures end.Some? ==> Kept(end.value)
      ensures end.None? ==> Underway() && Reached({1, 2}, [1, 2], [Prepare, Execute], Some(metrics))
    {
      metrics := "";
      end := PassEvent(2);
      if end.None? {
        end, metrics := RunExecution();
      }
    }

    method RunExecution() returns (end: Option<Disposition>, metrics: string)
      requires Underway() && Reached({1, 2}, [1, 2], [Prepare], None)
      modifies this
      ensures end.Some? ==> Kept(end.value)
      ensures end.None? ==> Underway() && Reached({1, 2}, [1, 2], [Prepare, Execute], Some(metrics))
    {
      metrics := "";
      var outcome;
      end, outcome := PassStage(Execute);
      if end.None? {
        if !outcome.metricsIsObject || outcome.artifacts != [] {
          var d := CleanupAndSubmitFailed(ExecutorContractInvalid);
          return Some(d), metrics;
        }
        metrics := outcome.metrics;
      }
    }

    // The uploading event, the upload, the cleanup and the result.
    method UploadAndFinish(metrics: string) returns (end: Disposition)
      requires Underway() && Reached({1, 2}, [1, 2], [Prepare, Execute], Some(metrics))
      modifies this
      ensures Kept(end)
    {
      var stopped := PassEvent(3);
      if stopped.Some? {
        return stopped.value;
      }
      var product;
      stopped, product := PassStage(Upload);
      if stopped.Some? {
        return stopped.value;
      }
      var requested := ReadRemoteFlag();
      if requested {
        end := FinishRemoteCancellation();
        return;
      }
      end := CleanupAndSubmitOutcome(metrics, product.artifacts);
    }

    // run_accepted_assignment.
    method Run() returns (end: Disposition)
      requires Valid() && journal.log == [] && workspace == None
      modifies this
      ensures Kept(end)
      ensures SubmitsAtMostOnce(journal.log, |journal.log|) && SubmitsRightAfterReadingFalse(journal.log, |journal.log|)
      ensures TokenExplained(journal.log) && NoResultAfterCancelledFinish(journal.log, |journal.log|)
      ensures ExecutesOnceAfterRunningAck(journal.log, |journal.log|) && SendsUnlessInterrupted(journal.log)
      // The result, the cleanup, the ending and the order are those the log asks for.
      ensures ResultsTold(journal.log) && CleansOnce(journal.log, end) && EndTold(journal.log, end)
      ensures InOrder(journal.log, |journal.log|)
      // Success is reported only of a job whose three events the control plane has bound.
      ensures journal.sent != [] && journal.sent[0].Succeeded? ==>
        forall number | 1 <= number <= 3 :: BoundBefore(journal.log, number, |journal.log|)
    {
      hide ResultsTold, CleansOnce, EndTold, InOrder, SendsUnlessInterrupted, SubmitsRightAfterReadingFalse;
      end := RunToEnd();
      SummaryPromises(journal);
      ResultFromLog(journal);
      CleanupFromLog(journal, end);
      EndFromLog(journal, end);
    }

    method RunToEnd() returns (end: Disposition)
      requires Valid() && journal.log == [] && workspace == None
      modifies this
      ensures Kept(end)
    {
      var stopped := Provision();
      if stopped.Some? {
        end := stopped.value;
      } else {
        var metrics;
        stopped, metrics := ExecuteJob();
        if stopped.Some? {
          end := stopped.value;
        } else {
          end := UploadAndFinish(metrics);
        }
      }
    }
  }

  predicate ProductOf(stage: Stage, product: Product) {
    match stage
    case Prepare => product.Prepared?
    case Execute => product.Executed?
    case Upload => product.Uploaded?
  }
}
