/**
 The container executor: one run of a provider job in Docker, from the first check to the
 last removal, with every command bounded by the job's deadlines.

 Time is in nanoseconds.  The clock never goes back and a sleep lasts at least as long as
 asked; a command takes any time at all.
 */
module ContainerExecutor {
  import opened Outcome
  import opened DockerHost

  const SECOND: nat := 1_000_000_000
  const RUNTIME_COMMAND_TIMEOUT: nat := 30 * SECOND
  const ARTIFACT_BRIDGE_TIMEOUT: nat := 120 * SECOND
  const CLEANUP_COMMAND_TIMEOUT: nat := 10 * SECOND

  datatype Failure =
    | ContractInvalid | IdentifierInvalid | WorkspaceMismatch | ImageNotAllowed
    | DeadlineInvalid | AssignmentExpired
    | ExecutionCancelled | LeaseExpired | ExecutionTimeout | RuntimeCommandTimedOut
    | NameConflict | CleanupFailed
    | OomKilled | ExitCodeMissing | ExitNonzero
    | Runtime(code: Code)

  // What turns a job away before any command.
  predicate Refusal(f: Failure) {
    match f
    case ContractInvalid => true
    case IdentifierInvalid => true
    case WorkspaceMismatch => true
    case ImageNotAllowed => true
    case DeadlineInvalid => true
    case AssignmentExpired => true
    case _ => false
  }

  predicate Ordinary(f: Failure) {
    !Refusal(f) && f != CleanupFailed
  }

  // ---------- Deadlines ----------

  datatype Deadlines = Deadlines(lease: int, timeout: int)

  function Limit(d: Deadlines): int {
    Min(d.lease, d.timeout)
  }

  // The last instant a timestamp can hold.
  type Horizon = int

  // An expiry that does not parse is None.  A run starts only with all three bounds ahead
  // of it, and its limit is the nearest of them.
  function ExecutionDeadlines(lease: Option<int>, credential: Option<int>, timeoutSeconds: nat,
                              now: int, horizon: Horizon)
    : (r: Result<Deadlines, Failure>)
    ensures r.Ok? <==> lease.Some? && credential.Some? && lease.value > now && credential.value > now
                       && now + timeoutSeconds * SECOND <= horizon
    ensures r == Err(AssignmentExpired) <==>
      lease.Some? && credential.Some? && (lease.value <= now || credential.value <= now)
    ensures r.Err? ==> r.error == AssignmentExpired || r.error == DeadlineInvalid
    ensures r.Ok? ==>
      && Limit(r.value) <= lease.value && Limit(r.value) <= credential.value
      && Limit(r.value) <= now + timeoutSeconds * SECOND
      && Limit(r.value) in {lease.value, credential.value, now + timeoutSeconds * SECOND}
  {
    if lease.None? || credential.None? then Err(DeadlineInvalid)
    else if lease.value <= now || credential.value <= now then Err(AssignmentExpired)
    else if now + timeoutSeconds * SECOND > horizon then Err(DeadlineInvalid)
    else Ok(Deadlines(Min(lease.value, credential.value), now + timeoutSeconds * SECOND))
  }

  datatype Active = Active(control: Control, timeoutCode: Failure)

  // A command is admitted exactly while no bound has been reached; it then gets until the
  // nearest of the two deadlines and its own timeout, and is told which of the three that is.
  function ActiveControl(cancelled: bool, now: int, d: Deadlines, timeout: nat): (r: Result<Active, Failure>)
    ensures r.Ok? <==> !cancelled && now < Limit(d)
    ensures r.Ok? ==>
      var until := r.value.control.until;
      && !r.value.control.cleanup
      && until == Min(now + timeout, Limit(d))
      && (r.value.timeoutCode == LeaseExpired <==> until == d.lease && d.lease <= d.timeout)
      && (r.value.timeoutCode == ExecutionTimeout <==> until == d.timeout && d.timeout < d.lease)
      && (r.value.timeoutCode == RuntimeCommandTimedOut <==> until < Limit(d))
    ensures r.Err? && !cancelled ==>
      (r.error == LeaseExpired <==> d.lease <= now) && (r.error == ExecutionTimeout <==> now < d.lease)
  {
    if cancelled then Err(ExecutionCancelled)
    else if now >= d.lease then Err(LeaseExpired)
    else if now >= d.timeout then Err(ExecutionTimeout)
    else
      var (deadline, deadlineCode) :=
        if d.lease <= d.timeout then (d.lease, LeaseExpired) else (d.timeout, ExecutionTimeout);
      var remaining := deadline - now;
      if remaining <= timeout then Ok(Active(Control(now + remaining, false), deadlineCode))
      else Ok(Active(Control(now + timeout, false), RuntimeCommandTimedOut))
  }

  function MapActive(code: Code, timeoutCode: Failure): Failure {
    match code
    case CommandCancelled => ExecutionCancelled
    case CommandTimedOut => timeoutCode
    case _ => Runtime(code)
  }

  // What is wrong with an exit.
  predicate Judges(state: ContainerState, error: Failure) {
    || (error == OomKilled && state.oomKilled)
    || (error == ExitCodeMissing && !state.oomKilled && state.exitCode == None)
    || (error == ExitNonzero && !state.oomKilled && state.exitCode.Some? && state.exitCode.value != 0)
  }

  // Only an exit with code 0 and no out-of-memory kill is a success.
  function VerdictOn(state: ContainerState): (r: Result<ContainerState, Failure>)
    ensures r.Ok? <==> state.exitCode == Some(0) && !state.oomKilled
    ensures if r.Ok? then r.value == state else Ordinary(r.error)
    ensures r.Err? ==> Judges(state, r.error)
  {
    if state.oomKilled then Err(OomKilled)
    else if state.exitCode.None? then Err(ExitCodeMissing)
    else if state.exitCode.value != 0 then Err(ExitNonzero)
    else Ok(state)
  }

  // ---------- The log of backend operations ----------

  datatype Step =
    | Verify | FindStale | RemoveStale | PrepareArtifacts | Create | StageInputs | Start
    | Inspect | Logs | CollectOutputs | SendTerm | SendKill
    | FindPartial | RemovePartial | RemoveWorkload | CleanupArtifacts

  // One operation: when it started and had to end, whether it was the job's own or cleanup, whether
  // the job was cancelled by then, what it would mean for it to time out, how it ended and with which
  // error, for an inspection what it saw, and what Docker had been asked to do before it and after it.
  datatype Op = Op(
    step: Step, at: int, until: int, active: bool, cancelled: bool, late: Failure,
    ok: bool, error: Option<Code>, seen: Option<ContainerState>, before: History, after: History)

  function Tick(b: bool): nat {
    if b then 1 else 0
  }

  predicate SawStopped(op: Op) {
    op.seen.Some? && !op.seen.value.running
  }

  // ---------- The operations and Docker's own log ----------

  // The command on the workload container that a step is.
  predicate Signals(step: Step, command: Command) {
    match step
    case Verify => command == Command.Verify
    case Start => command == Command.Start
    case Logs => command == Command.Logs
    case SendTerm => command == Terminate
    case SendKill => command == Kill
    case _ => false
  }

  predicate Finds(step: Step) {
    step == FindStale || step == FindPartial
  }

  predicate Removes(step: Step) {
    step == RemoveStale || step == RemovePartial || step == RemoveWorkload
  }

  // The steps that are many commands, none of them on the workload container.
  predicate OnArtifacts(step: Step) {
    step == PrepareArtifacts || step == StageInputs || step == CollectOutputs || step == CleanupArtifacts
  }

  function ErrorOf<T>(r: Result<T, Code>): Option<Code> {
    if r.Err? then Some(r.error) else None
  }

  // The workload container as it is to be: the plan's name and labels, and where there are artifacts both
  // volumes, that of the inputs read-only.
  predicate AsPlanned(plan: Plan, name: string, made: Container) {
    && name == plan.name && made.labels == plan.labels
    && made.mounts
       == if plan.artifactWorkspace
          then map[plan.name + "-artifact-input" := ReadOnly, plan.name + "-artifact-output" := Writable]
          else map[]
  }

  // The one command of a step, with the result it had and the state it showed.
  predicate Tells(plan: Plan, step: Step, deed: Deed, error: Option<Code>, seen: Option<ContainerState>) {
    && !OnVolume(deed) && deed.slot == Workload
    && match deed
       case Commanded(command, _, result) => Signals(step, command) && error == ErrorOf(result) && seen == None
       case FoundContainer(_, labels) => Finds(step) && error == ErrorOf(labels) && seen == None
       case CreatedContainer(_, name, made, result) =>
         step == Create && error == ErrorOf(result) && seen == None && AsPlanned(plan, name, made)
       case RemovedContainer(_, result) => Removes(step) && error == ErrorOf(result) && seen == None
       case Inspected(_, state) =>
         step == Inspect && error == ErrorOf(state) && seen == if state.Ok? then Some(state.value) else None
  }

  // What the commands of the other steps come to; where they fail, something went wrong among them.
  ghost predicate Composed(plan: Plan, op: Op) {
    && op.seen == None
    && (!op.ok && op.step != CleanupArtifacts ==> Faults(plan, op.after) > Faults(plan, op.before))
    && match op.step
       case PrepareArtifacts => op.ok ==> StorageMade(plan, op.before, op.after)
       case StageInputs => if plan.inputs == 0 then op.ok && op.after == op.before else
         op.ok ==> Moved(plan, op.before, op.after, Import)
       case CollectOutputs => if plan.outputs == 0 then op.ok && op.after == op.before else
         op.ok ==> Moved(plan, op.before, op.after, Export)
       case CleanupArtifacts => if !plan.artifactWorkspace then op.ok && op.after == op.before else
         Swept(plan, |TARGETS|, op.before, op.after) && op.error == FirstError(|TARGETS|, op.after)
       case _ => false
  }

  // An operation is what Docker was asked to do between its two ends: one command on the workload
  // container with the operation's own time, control and result, or commands on the artifacts alone.
  ghost predicate WellNoted(plan: Plan, op: Op) {
    var control := Control(op.until, !op.active);
    && (op.ok <==> op.error.None?)
    && if OnArtifacts(op.step) then Inner(op.before, op.after, control, op.at) && Composed(plan, op)
       else
         && op.after.After? && op.after.earlier == op.before
         && op.after.act.at == op.at && op.after.act.cancelled == op.cancelled && op.after.act.control == control
         && Tells(plan, op.step, op.after.act.deed, op.error, op.seen)
  }

  function LogAt(base: History, ops: seq<Op>, n: nat): History
    requires n <= |ops|
  {
    if n == 0 then base else ops[n - 1].after
  }

  // The first operations follow each other without a gap: what Docker was asked to do since `base` is
  // theirs and only theirs.
  ghost predicate Told(plan: Plan, base: History, ops: seq<Op>, n: nat)
    requires n <= |ops|
  {
    n > 0 ==>
      && Told(plan, base, ops, n - 1)
      && ops[n - 1].before == LogAt(base, ops, n - 1) && WellNoted(plan, ops[n - 1])
  }

  lemma {:induction false} ToldKept(plan: Plan, base: History, ops: seq<Op>, op: Op, n: nat)
    requires n <= |ops| && Told(plan, base, ops, n)
    ensures Told(plan, base, ops + [op], n)
  {
    if n > 0 {
      ToldKept(plan, base, ops, op, n - 1);
    }
  }

  lemma {:induction false} ToldNext(plan: Plan, base: History, ops: seq<Op>, op: Op)
    requires Told(plan, base, ops, |ops|) && op.before == LogAt(base, ops, |ops|) && WellNoted(plan, op)
    ensures Told(plan, base, ops + [op], |ops| + 1)
  {
    ToldKept(plan, base, ops, op, |ops|);
    assert (ops + [op])[|ops|] == op;
    assert LogAt(base, ops + [op], |ops|) == LogAt(base, ops, |ops|);
  }

  lemma {:induction false} ToldAt(plan: Plan, base: History, ops: seq<Op>, n: nat, i: nat)
    requires i < n <= |ops| && Told(plan, base, ops, n)
    ensures ops[i].before == LogAt(base, ops, i) && WellNoted(plan, ops[i])
  {
    if i < n - 1 {
      ToldAt(plan, base, ops, n - 1, i);
    }
  }

  // How often Docker was asked to make and to remove the workload container.
  function Creations(log: History): nat {
    if log.Nothing? then 0
    else Creations(log.earlier) + Tick(log.act.deed.CreatedContainer? && log.act.deed.slot == Workload)
  }

  function Removals(log: History): nat {
    if log.Nothing? then 0
    else Removals(log.earlier) + Tick(log.act.deed.RemovedContainer? && log.act.deed.slot == Workload)
  }

  // And how often it was given a command on it.
  function Commands(log: History, command: Command): nat {
    if log.Nothing? then 0
    else
      var d := log.act.deed;
      Commands(log.earlier, command) + Tick(d.Commanded? && d.command == command && d.slot == Workload)
  }

  lemma {:induction false} InnerCountsNothing(a: History, b: History, control: Control, from: int, command: Command)
    requires Inner(a, b, control, from)
    ensures Creations(b) == Creations(a) && Removals(b) == Removals(a) && Commands(b, command) == Commands(a, command)
  {
    if a != b {
      InnerCountsNothing(a, b.earlier, control, from, command);
    }
  }

  lemma {:induction false} OpCounts(plan: Plan, op: Op, command: Command)
    requires WellNoted(plan, op)
    ensures Creations(op.after) == Creations(op.before) + Tick(op.step == Create)
    ensures Removals(op.after) == Removals(op.before) + Tick(Removes(op.step))
    ensures Commands(op.after, command) == Commands(op.before, command) + Tick(Signals(op.step, command))
  {
    if OnArtifacts(op.step) {
      InnerCountsNothing(op.before, op.after, Control(op.until, !op.active), op.at, command);
    }
  }

  // Counting the steps is counting the commands: every removal and creation of the workload container
  // and every other command on it that Docker was given is a step, and every step was given.
  lemma {:induction false} StepsAreRemovals(plan: Plan, base: History, ops: seq<Op>, n: nat)
    requires n <= |ops| && Told(plan, base, ops, n)
    ensures Creations(LogAt(base, ops, n)) == Creations(base) + Count(ops, n, Create)
    ensures Removals(LogAt(base, ops, n))
            == Removals(base)
               + Count(ops, n, RemoveStale) + Count(ops, n, RemovePartial) + Count(ops, n, RemoveWorkload)
  {
    if n > 0 {
      StepsAreRemovals(plan, base, ops, n - 1);
      OpCounts(plan, ops[n - 1], Command.Verify);
    }
  }

  lemma {:induction false} StepsAreCommands(plan: Plan, base: History, ops: seq<Op>, n: nat,
                                            step: Step, command: Command)
    requires n <= |ops| && Told(plan, base, ops, n) && Signals(step, command)
    ensures Commands(LogAt(base, ops, n), command) == Commands(base, command) + Count(ops, n, step)
  {
    if n > 0 {
      StepsAreCommands(plan, base, ops, n - 1, step, command);
      OpCounts(plan, ops[n - 1], command);
    }
  }

  // Over the first operations: how many are a given step, and how many of those worked.
  function Count(ops: seq<Op>, n: nat, step: Step): nat
    requires n <= |ops|
  {
    if n == 0 then 0 else Count(ops, n - 1, step) + if ops[n - 1].step == step then 1 else 0
  }

  function CountOk(ops: seq<Op>, n: nat, step: Step): nat
    requires n <= |ops|
  {
    if n == 0 then 0 else CountOk(ops, n - 1, step) + if ops[n - 1].step == step && ops[n - 1].ok then 1 else 0
  }

  // Outputs were collected while the workload container was still there.
  predicate CollectedFirst(ops: seq<Op>, n: nat)
    requires n <= |ops|
  {
    n > 0
    && (CollectedFirst(ops, n - 1)
        || (ops[n - 1].step == CollectOutputs && ops[n - 1].ok && Count(ops, n - 1, RemoveWorkload) == 0))
  }

  // Inputs were staged before the workload container was started.
  predicate StagedFirst(ops: seq<Op>, n: nat)
    requires n <= |ops|
  {
    n > 0
    && (StagedFirst(ops, n - 1)
        || (ops[n - 1].step == StageInputs && ops[n - 1].ok && CountOk(ops, n - 1, Step.Start) == 0))
  }

  lemma {:induction false} NoneWorked(ops: seq<Op>, n: nat, step: Step)
    requires n <= |ops|
    ensures CountOk(ops, n, step) == 0 <==> forall i | 0 <= i < n && ops[i].step == step :: !ops[i].ok
  {
    if n > 0 {
      NoneWorked(ops, n - 1, step);
    }
  }

  lemma {:induction false} StagingCameFirst(ops: seq<Op>, n: nat)
    requires n <= |ops| && StagedFirst(ops, n)
    ensures exists i | 0 <= i < n ::
      ops[i].step == StageInputs && ops[i].ok && forall j | 0 <= j < i && ops[j].step == Step.Start :: !ops[j].ok
  {
    if StagedFirst(ops, n - 1) {
      StagingCameFirst(ops, n - 1);
    } else {
      NoneWorked(ops, n - 1, Step.Start);
      assert ops[n - 1].step == StageInputs;
    }
  }

  lemma {:induction false} UncountedIsAbsent(ops: seq<Op>, n: nat, step: Step)
    requires n <= |ops|
    ensures Count(ops, n, step) == 0 <==> forall i | 0 <= i < n :: ops[i].step != step
  {
    if n > 0 {
      UncountedIsAbsent(ops, n - 1, step);
    }
  }

  lemma {:induction false} CollectionCameFirst(ops: seq<Op>, n: nat)
    requires n <= |ops| && CollectedFirst(ops, n)
    ensures exists i | 0 <= i < n ::
      ops[i].step == CollectOutputs && ops[i].ok && forall j | 0 <= j < i :: ops[j].step != RemoveWorkload
  {
    if CollectedFirst(ops, n - 1) {
      CollectionCameFirst(ops, n - 1);
    } else {
      UncountedIsAbsent(ops, n - 1, RemoveWorkload);
      assert ops[n - 1].step == CollectOutputs;
    }
  }

  // Nothing starts before the run does.  An active command starts before both deadlines and before any
  // cancellation; it gets 30 seconds, or 120 to move files, but none beyond the nearer deadline, and its
  // timing out means whichever of these comes first.  Cleanup gets no more than 10 seconds a time.
  predicate Allowed(op: Op, started: int, d: Deadlines) {
    && started <= op.at
    && (op.active ==> op.at < d.lease && op.at < d.timeout && !op.cancelled && InTime(op, d))
    && (!op.active ==> op.at <= op.until <= op.at + 10_000_000_000)
  }

  predicate InTime(op: Op, d: Deadlines) {
    var own := op.at + if op.step == StageInputs || op.step == CollectOutputs then 120_000_000_000 else 30_000_000_000;
    && op.until <= own && op.until <= d.lease && op.until <= d.timeout
    && (op.until == own || op.until == d.lease || op.until == d.timeout)
    && (op.late == LeaseExpired <==> op.until == d.lease)
    && (op.late == ExecutionTimeout <==> op.until == d.timeout && op.until < d.lease)
    && (op.late == RuntimeCommandTimedOut <==> op.until < d.lease && op.until < d.timeout)
  }

  predicate Timely(ops: seq<Op>, started: int, d: Deadlines) {
    forall i | 0 <= i < |ops| :: Allowed(ops[i], started, d)
  }

  lemma {:induction false} TimelyNext(ops: seq<Op>, op: Op, started: int, d: Deadlines)
    requires Timely(ops, started, d) && Allowed(op, started, d)
    ensures Timely(ops + [op], started, d)
  {
  }

  // The container as it was last seen stopped.
  function LastExit(ops: seq<Op>, n: nat): Option<ContainerState>
    requires n <= |ops|
  {
    if n == 0 then None
    else if SawStopped(ops[n - 1]) then ops[n - 1].seen
    else LastExit(ops, n - 1)
  }

  lemma {:induction false} ExitWasSeen(ops: seq<Op>, n: nat)
    requires n <= |ops|
    ensures LastExit(ops, n).Some? ==> exists i | 0 <= i < n :: SawStopped(ops[i]) && ops[i].seen == LastExit(ops, n)
  {
    if n > 0 {
      ExitWasSeen(ops, n - 1);
    }
  }

  // ---------- What went wrong ----------

  // The cleanup whose failure is reported.
  predicate Owed(step: Step) {
    || step == SendKill || step == FindPartial || step == RemovePartial
    || step == RemoveWorkload || step == CleanupArtifacts
  }

  // Whether any operation failed, how the first of the job's own that failed is reported, and the error of
  // the first cleanup that failed.
  datatype Blame = Blame(failed: bool, cause: Option<Failure>, soil: Option<Code>)

  const BLAMELESS := Blame(false, None, None)

  function Blamed(b: Blame, op: Op): Blame {
    Blame(
      b.failed || !op.ok,
      if b.cause.Some? then b.cause
      else if op.active && op.error.Some? then Some(MapActive(op.error.value, op.late)) else None,
      if b.soil.Some? then b.soil else if !op.active && Owed(op.step) then op.error else None)
  }

  function BlameOf(ops: seq<Op>, n: nat): Blame
    requires n <= |ops|
  {
    if n == 0 then BLAMELESS else Blamed(BlameOf(ops, n - 1), ops[n - 1])
  }

  lemma {:induction false} BlameKept(ops: seq<Op>, op: Op, n: nat)
    requires n <= |ops|
    ensures BlameOf(ops + [op], n) == BlameOf(ops, n)
  {
    hide Blamed;
    if n > 0 {
      BlameKept(ops, op, n - 1);
      assert (ops + [op])[n - 1] == ops[n - 1];
    }
  }

  lemma {:induction false} BlameNext(ops: seq<Op>, op: Op)
    ensures BlameOf(ops + [op], |ops| + 1) == Blamed(BlameOf(ops, |ops|), op)
  {
    hide Blamed;
    BlameKept(ops, op, |ops|);
    assert (ops + [op])[|ops|] == op;
  }

  lemma {:induction false} FailureIsThere(ops: seq<Op>, n: nat)
    requires n <= |ops|
    ensures BlameOf(ops, n).failed <==> exists i | 0 <= i < n :: !ops[i].ok
  {
    if n > 0 {
      FailureIsThere(ops, n - 1);
    }
  }

  // How a failed operation of the job's own is reported.
  predicate Reports(op: Op, error: Failure) {
    && op.active && op.error.Some?
    && (op.error.value == CommandCancelled ==> error == ExecutionCancelled)
    && (op.error.value == CommandTimedOut ==> error == op.late)
    && (op.error.value != CommandCancelled && op.error.value != CommandTimedOut ==> error == Runtime(op.error.value))
  }

  // The first of the job's own operations that failed is reported so.
  ghost predicate FailedFirst(ops: seq<Op>, error: Failure) {
    exists i | 0 <= i < |ops| ::
      Reports(ops[i], error) && forall k | 0 <= k < i && ops[k].active :: ops[k].error.None?
  }

  // Some cleanup failed with this error.
  ghost predicate CleanupError(ops: seq<Op>, code: Code) {
    exists i | 0 <= i < |ops| :: !ops[i].active && Owed(ops[i].step) && ops[i].error == Some(code)
  }

  lemma {:induction false} CauseIsFirst(ops: seq<Op>, n: nat)
    requires n <= |ops|
    ensures BlameOf(ops, n).cause.None? ==> forall k | 0 <= k < n && ops[k].active :: ops[k].error.None?
    ensures BlameOf(ops, n).cause.Some? ==> exists i | 0 <= i < n ::
      Reports(ops[i], BlameOf(ops, n).cause.value) && forall k | 0 <= k < i && ops[k].active :: ops[k].error.None?
    ensures BlameOf(ops, n).soil.Some? ==> exists i | 0 <= i < n ::
      !ops[i].active && Owed(ops[i].step) && ops[i].error == BlameOf(ops, n).soil
  {
    if n > 0 {
      CauseIsFirst(ops, n - 1);
      var op, before, after := ops[n - 1], BlameOf(ops, n - 1), BlameOf(ops, n);
      if before.cause.None? && after.cause.Some? {
        assert Reports(op, after.cause.value);
      }
      if before.soil.None? && after.soil.Some? {
        assert !op.active && Owed(op.step) && op.error == after.soil;
      }
    }
  }

  // What the counted steps come to.
  datatype Tally = Tally(
    prepares: nat, prepared: nat, creates: nat, created: nat,
    removals: nat, removed: nat, cleanups: nat, cleaned: nat, started: nat, terms: nat,
    staged: bool, collected: bool, exit: Option<ContainerState>)

  predicate Counted(step: Step) {
    match step
    case PrepareArtifacts => true
    case Create => true
    case RemoveWorkload => true
    case CleanupArtifacts => true
    case StageInputs => true
    case CollectOutputs => true
    case Start => true
    case SendTerm => true
    case _ => false
  }

  function Add(t: Tally, step: Step, ok: bool): (r: Tally)
    ensures !Counted(step) ==> r == t
  {
    Tally(
      t.prepares + Tick(step == PrepareArtifacts), t.prepared + Tick(step == PrepareArtifacts && ok),
      t.creates + Tick(step == Create), t.created + Tick(step == Create && ok),
      t.removals + Tick(step == RemoveWorkload), t.removed + Tick(step == RemoveWorkload && ok),
      t.cleanups + Tick(step == CleanupArtifacts), t.cleaned + Tick(step == CleanupArtifacts && ok),
      t.started + Tick(step == Step.Start && ok), t.terms + Tick(step == SendTerm),
      t.staged || (step == StageInputs && ok && t.started == 0),
      t.collected || (step == CollectOutputs && ok && t.removals == 0), t.exit)
  }

  const ZERO := Tally(0, 0, 0, 0, 0, 0, 0, 0, 0, 0, false, false, None)

  function Include(t: Tally, op: Op): Tally {
    var u := Add(t, op.step, op.ok);
    if SawStopped(op) then u.(exit := op.seen) else u
  }

  function TallyOf(ops: seq<Op>, n: nat): Tally
    requires n <= |ops|
  {
    if n == 0 then ZERO else Include(TallyOf(ops, n - 1), ops[n - 1])
  }

  // What one more operation adds.
  lemma {:induction false} IncludeAdds(t: Tally, op: Op)
    ensures var u := Include(t, op);
      && u.prepares == t.prepares + Tick(op.step == PrepareArtifacts)
      && u.prepared == t.prepared + Tick(op.step == PrepareArtifacts && op.ok)
      && u.cleanups == t.cleanups + Tick(op.step == CleanupArtifacts)
      && u.cleaned == t.cleaned + Tick(op.step == CleanupArtifacts && op.ok)
      && u.started == t.started + Tick(op.step == Step.Start && op.ok) && u.terms == t.terms + Tick(op.step == SendTerm)
      && u.staged == (t.staged || (op.step == StageInputs && op.ok && t.started == 0))
  {
  }

  lemma {:induction false} TallyCountsStorage(ops: seq<Op>, n: nat)
    requires n <= |ops|
    ensures var t := TallyOf(ops, n);
      && t.prepares == Count(ops, n, PrepareArtifacts) && t.prepared == CountOk(ops, n, PrepareArtifacts)
      && t.cleanups == Count(ops, n, CleanupArtifacts) && t.cleaned == CountOk(ops, n, CleanupArtifacts)
  {
    if n > 0 {
      hide Include;
      TallyCountsStorage(ops, n - 1);
      IncludeAdds(TallyOf(ops, n - 1), ops[n - 1]);
    }
  }

  lemma {:induction false} TallyCountsSignals(ops: seq<Op>, n: nat)
    requires n <= |ops|
    ensures var t := TallyOf(ops, n);
      && t.started == CountOk(ops, n, Step.Start) && t.terms == Count(ops, n, SendTerm)
      && t.staged == StagedFirst(ops, n)
  {
    if n > 0 {
      hide Include;
      TallyCountsSignals(ops, n - 1);
      IncludeAdds(TallyOf(ops, n - 1), ops[n - 1]);
    }
  }

  lemma {:induction false} TallyCountsWorkload(ops: seq<Op>, n: nat)
    requires n <= |ops|
    ensures var t := TallyOf(ops, n);
      && t.creates == Count(ops, n, Create) && t.created == CountOk(ops, n, Create)
      && t.removals == Count(ops, n, RemoveWorkload) && t.removed == CountOk(ops, n, RemoveWorkload)
      && t.collected == CollectedFirst(ops, n) && t.exit == LastExit(ops, n)
  {
    if n > 0 {
      TallyCountsWorkload(ops, n - 1);
    }
  }

  // The tally is what counting over the whole log gives.
  lemma {:induction false} TallyCounts(ops: seq<Op>, n: nat)
    requires n <= |ops|
    ensures TallyOf(ops, n) == Tally(
      Count(ops, n, PrepareArtifacts), CountOk(ops, n, PrepareArtifacts),
      Count(ops, n, Create), CountOk(ops, n, Create),
      Count(ops, n, RemoveWorkload), CountOk(ops, n, RemoveWorkload),
      Count(ops, n, CleanupArtifacts), CountOk(ops, n, CleanupArtifacts),
      CountOk(ops, n, Step.Start), Count(ops, n, SendTerm),
      StagedFirst(ops, n), CollectedFirst(ops, n), LastExit(ops, n))
  {
    TallyCountsStorage(ops, n);
    TallyCountsSignals(ops, n);
    TallyCountsWorkload(ops, n);
  }

  lemma {:induction false} TallyKept(ops: seq<Op>, op: Op, n: nat)
    requires n <= |ops|
    ensures TallyOf(ops + [op], n) == TallyOf(ops, n)
  {
    hide Include;
    if n > 0 {
      assert (ops + [op])[n - 1] == ops[n - 1];
      TallyKept(ops, op, n - 1);
    }
  }

  lemma {:induction false} TallyNext(ops: seq<Op>, op: Op)
    ensures TallyOf(ops + [op], |ops| + 1) == Include(TallyOf(ops, |ops|), op)
  {
    hide Include;
    TallyKept(ops, op, |ops|);
    assert (ops + [op])[|ops|] == op;
  }

  // The tally after an inspection.
  function Seen(t: Tally, r: Result<ContainerState, Failure>): Tally {
    if r.Ok? && !r.value.running then t.(exit := Some(r.value)) else t
  }

  // The operations since Docker's log was `base`, what they come to, what went wrong, and the log now.
  datatype Record = Record(plan: Plan, base: History, ops: seq<Op>, tally: Tally, blame: Blame, log: History)

  type Ledger = r: Record |
    && r.tally == TallyOf(r.ops, |r.ops|) && r.log == LogAt(r.base, r.ops, |r.ops|)
    && Told(r.plan, r.base, r.ops, |r.ops|) && r.blame == BlameOf(r.ops, |r.ops|)
    ghost witness Record(PlanRecord.Plan("", map[], false, 0, 0, 0, 0), Nothing, [], ZERO, BLAMELESS, Nothing)

  method Append(ledger: Ledger, op: Op) returns (r: Ledger)
    requires op.before == ledger.log && WellNoted(ledger.plan, op)
    ensures r.plan == ledger.plan && r.base == ledger.base && r.log == op.after
    ensures r.ops == ledger.ops + [op] && r.tally == Include(ledger.tally, op) && r.blame == Blamed(ledger.blame, op)
  {
    hide TallyOf, Told, BlameOf, Blamed, Include, WellNoted;
    assert |ledger.ops + [op]| == |ledger.ops| + 1;
    BlameNext(ledger.ops, op);
    TallyNext(ledger.ops, op);
    ToldNext(ledger.plan, ledger.base, ledger.ops, op);
    r := Record(
      ledger.plan, ledger.base, ledger.ops + [op], Include(ledger.tally, op), Blamed(ledger.blame, op), op.after);
  }

  // ---------- One run ----------

  datatype Policy = Policy(pollSeconds: nat, silenceSeconds: nat, gracefulSeconds: nat, forceSeconds: nat)

  predicate ValidPolicy(p: Policy) {
    && p.pollSeconds != 0 && p.silenceSeconds >= p.pollSeconds
    && p.gracefulSeconds != 0 && p.forceSeconds >= p.gracefulSeconds
  }

  // After an inspection the next thing comes an interval later, or at a deadline before that.
  predicate Rests(op: Op, interval: nat, deadline: int, next: int) {
    op.after.After? && (next >= op.after.act.end + interval || next >= deadline)
  }

  // From a place on: inspections that each saw the container running, an interval apart or up to the limit.
  predicate Watching(ops: seq<Op>, from: nat, interval: nat, limit: int) {
    && from <= |ops|
    && (forall i | from <= i < |ops| :: ops[i].step == Inspect && ops[i].seen.Some? && ops[i].seen.value.running)
    && (forall i | from < i < |ops| :: Rests(ops[i - 1], interval, limit, ops[i].at))
  }

  // And at last, where the exit was seen or an inspection failed, that one.
  predicate Watched(ops: seq<Op>, from: nat, interval: nat, limit: int, r: Result<ContainerState, Failure>) {
    || (r.Err? && Watching(ops, from, interval, limit))
    || (&& from < |ops| && Watching(ops[..|ops| - 1], from, interval, limit)
        && var last := ops[|ops| - 1];
        && (from < |ops| - 1 ==> Rests(ops[|ops| - 2], interval, limit, last.at)) && last.step == Inspect
        && if r.Ok? then last.seen == Some(r.value) && !r.value.running else !last.ok)
  }

  // A termination: when it began, its two deadlines, and how long to wait between looks.
  datatype Escalation = Escalation(began: int, graceful: int, force: int, interval: nat)

  // It gets ten seconds, but none beyond the force deadline.
  predicate Hurried(op: Op, force: int) {
    op.until == if op.at + 10_000_000_000 <= force then op.at + 10_000_000_000
                else if op.at <= force then force
                else op.at
  }

  function NextAt(ops: seq<Op>, i: nat, now: int): int
    requires i < |ops|
  {
    if i + 1 < |ops| then ops[i + 1].at else now
  }

  // An inspection before the force deadline that did not see the container stopped.  The next look comes
  // an interval later, but no later than the graceful deadline if that is still to come, else the force one.
  predicate Polled(op: Op, e: Escalation, next: int) {
    && op.step == Inspect && !SawStopped(op) && e.began <= op.at < e.force && op.at < next && Hurried(op, e.force)
    && Rests(op, e.interval, if op.at < e.graceful then e.graceful else e.force, next)
  }

  // From a place on: one TERM, then such inspections, one after the other.
  predicate Polling(ops: seq<Op>, from: nat, e: Escalation, now: int) {
    && from < |ops| && ops[from].step == SendTerm && e.began <= ops[from].at <= now && Hurried(ops[from], e.force)
    && (forall i | from < i < |ops| :: Polled(ops[i], e, NextAt(ops, i, now)))
  }

  // And at last one that did see it stopped, or a KILL at or after the force deadline; the escalation
  // worked exactly if the container was seen stopped or the KILL went through.
  predicate Escalated(ops: seq<Op>, from: nat, e: Escalation, ok: bool) {
    && from + 1 < |ops|
    && var last := ops[|ops| - 1];
    && Polling(ops[..|ops| - 1], from, e, last.at)
    && (if last.step == Inspect then SawStopped(last) && last.at < e.force && Hurried(last, e.force)
        else last.step == SendKill && last.at >= e.force && last.until == last.at + 10_000_000_000)
    && (ok <==> last.step == Inspect || last.ok)
  }

  lemma {:induction false} PollsLater(ops: seq<Op>, from: nat, e: Escalation, now: int, later: int)
    requires Polling(ops, from, e, now) && now <= later
    ensures Polling(ops, from, e, later)
  {
    forall i | from < i < |ops| ensures Polled(ops[i], e, NextAt(ops, i, later)) {
      assert Polled(ops[i], e, NextAt(ops, i, now));
    }
  }

  lemma {:induction false} PollsNext(ops: seq<Op>, op: Op, from: nat, e: Escalation, now: int)
    requires Polling(ops, from, e, op.at) && Polled(op, e, now)
    ensures Polling(ops + [op], from, e, now)
  {
    forall i | from < i < |ops| ensures Polled(ops[i], e, NextAt(ops + [op], i, now)) {
      assert Polled(ops[i], e, NextAt(ops, i, op.at));
    }
  }

  lemma {:induction false} PollsEnd(ops: seq<Op>, op: Op, from: nat, e: Escalation, ok: bool)
    requires Polling(ops, from, e, op.at)
    requires if op.step == Inspect then SawStopped(op) && op.at < e.force && Hurried(op, e.force)
             else op.step == SendKill && op.at >= e.force && op.until == op.at + 10_000_000_000
    requires ok <==> op.step == Inspect || op.ok
    ensures Escalated(ops + [op], from, e, ok)
  {
    assert (ops + [op])[..|ops|] == ops;
  }

  lemma {:induction false} WatchEnds(ops: seq<Op>, from: nat, interval: nat, limit: int,
                                     r: Result<ContainerState, Failure>)
    requires Watching(ops, from, interval, limit) && r.Err?
    ensures Watched(ops, from, interval, limit, r)
  {
  }

  lemma {:induction false} WatchGoesOn(ops: seq<Op>, op: Op, from: nat, interval: nat, limit: int,
                                       r: Result<ContainerState, Failure>)
    requires Watching(ops, from, interval, limit) && op.step == Inspect
    requires from < |ops| ==> Rests(ops[|ops| - 1], interval, limit, op.at)
    ensures op.seen.Some? && op.seen.value.running ==> Watching(ops + [op], from, interval, limit)
    ensures (if r.Ok? then op.seen == Some(r.value) && !r.value.running else !op.ok) ==>
      Watched(ops + [op], from, interval, limit, r)
  {
    assert (ops + [op])[..|ops|] == ops;
  }

  // What one removal of the workload and one cleanup come to.
  lemma {:induction false} RemovedAndCleaned(t: Tally, removed: bool, cleaned: bool)
    ensures Add(Add(t, RemoveWorkload, removed), CleanupArtifacts, cleaned) == t.(
      removals := t.removals + 1, removed := t.removed + Tick(removed),
      cleanups := t.cleanups + 1, cleaned := t.cleaned + Tick(cleaned))
    ensures Add(t, RemoveWorkload, removed).cleaned == t.cleaned
  {
  }

  // What in the course of a run only ever becomes later or true, or is settled once it is known.
  datatype Moment = Moment(now: int, cancelled: bool, blame: Blame)

  predicate Later(a: Moment, b: Moment) {
    && a.now <= b.now && (a.cancelled ==> b.cancelled) && (a.blame.failed ==> b.blame.failed)
    && (a.blame.cause.Some? ==> b.blame.cause == a.blame.cause) && (a.blame.soil.Some? ==> b.blame.soil == a.blame.soil)
  }

  class ContainerRun {
    const docker: Docker
    const policy: Policy
    const horizon: Horizon
    var started: int
    var deadlines: Deadlines
    var ledger: Ledger
    ghost var base: History          // Docker's log when the run began

    constructor (docker: Docker, policy: Policy, horizon: Horizon)
      requires docker.Valid()
      ensures this.docker == docker && this.policy == policy && ledger.ops == []
    {
      this.docker, this.policy, this.horizon := docker, policy, horizon;
      started, deadlines, base := 0, Deadlines(0, 0), docker.log;
      ledger := Record(docker.plan, docker.log, [], ZERO, BLAMELESS, docker.log);
    }

    ghost predicate Valid()
      reads this, docker
    {
      docker.Valid() && Sound() && ledger.log == docker.log
    }

    ghost predicate Sound()
      reads this, docker
    {
      && ValidPolicy(policy) && ledger.plan == docker.plan && ledger.base == base
      && started <= docker.now && Timely(ledger.ops, started, deadlines)
    }

    // An operation that is over but not yet in the ledger.
    ghost predicate Done(op: Op)
      reads this, docker
    {
      && docker.Valid() && Sound() && ledger.log == op.before && docker.log == op.after
      && WellNoted(docker.plan, op) && Allowed(op, started, deadlines)
    }

    ghost function Here(): Moment
      reads this, docker
    {
      Moment(docker.now, docker.cancelled, ledger.blame)
    }

    // The job was cancelled or has reached its limit, or some operation failed.
    ghost predicate Hindered()
      reads this, docker
    {
      docker.cancelled || docker.now >= Limit(deadlines) || ledger.blame.failed
    }

    // Why an operation of the job's own is not done: one failed and is reported so, the job was cancelled,
    // or a deadline has passed.
    ghost predicate Reason(error: Failure)
      reads this, docker
    {
      || ledger.blame.cause == Some(error)
      || (error == ExecutionCancelled && docker.cancelled)
      || (error == LeaseExpired && docker.now >= deadlines.lease)
      || (error == ExecutionTimeout && docker.now >= deadlines.timeout)
    }

    // Something works exactly if nothing hinders it: success blames nothing, and failure has a reason.
    ghost predicate Explained(was: Moment, error: Option<Failure>)
      reads this, docker
    {
      && Later(was, Here())
      && if error.None? then ledger.blame == was.blame
         else Hindered() && ledger.blame.soil == was.blame.soil && (was.blame.cause.None? ==> Reason(error.value))
    }

    // The same of cleanup, whose first error is kept.
    ghost predicate Cleaned(was: Moment, error: Option<Code>)
      reads this, docker
    {
      && Later(was, Here()) && ledger.blame.cause == was.blame.cause
      && if error.None? then ledger.blame == was.blame
         else ledger.blame.failed && (was.blame.soil.None? ==> ledger.blame.soil == error)
    }

    // What a failure from a created container on says.
    ghost predicate Says(error: Failure)
      reads this, docker
    {
      || Reason(error)
      || (error == CleanupFailed && ledger.blame.soil.Some?)
      || (ledger.tally.exit.Some? && Judges(ledger.tally.exit.value, error))
    }

    // And any failure at all: the name may be another's, and what a failed creation leaves may not go away.
    ghost predicate SaysAll(error: Failure)
      reads this, docker
    {
      || Says(error)
      || (error == NameConflict && !Ours())
      || (error.Runtime? && ledger.blame.soil == Some(error.code))
    }

    function FailureIn<T>(r: Result<T, Failure>): Option<Failure> {
      if r.Err? then Some(r.error) else None
    }

    // Nothing stands in the way of the plan's artifacts.
    ghost predicate Settled() {
      docker.plan.artifactWorkspace ==> docker.mine
    }

    // Whatever has the workload's name is the plan's own.
    ghost predicate Ours()
      reads docker
    {
      SlotMatches(docker.plan, docker.world, Workload)
    }

    // The last operation is this step with this result; or, for an active one, no operation was
    // added, because the job had been cancelled or had reached its limit.
    ghost predicate Noted(before: seq<Op>, step: Step, ok: bool)
      reads this
    {
      && |ledger.ops| == |before| + 1 && before <= ledger.ops
      && ledger.ops[|before|].step == step && ledger.ops[|before|].ok == ok
    }

    ghost predicate NotedIfAdmitted(before: seq<Op>, step: Step, ok: bool)
      reads this, docker
    {
      Noted(before, step, ok)
      || (!ok && ledger.ops == before && (docker.cancelled || docker.now >= Limit(deadlines)))
    }

    function WorkloadMounts(): Mounts {
      if docker.plan.artifactWorkspace
      then map[VolumeName(docker.plan, Input) := ReadOnly, VolumeName(docker.plan, Output) := Writable]
      else map[]
    }

    // An operation about to start, and what it is when it is over.
    function Issue(step: Step, control: Control, late: Failure): Op
      reads docker
    {
      Op(step, docker.now, control.until, !control.cleanup, docker.cancelled, late,
         false, None, None, docker.log, docker.log)
    }

    function Over(op: Op, error: Option<Code>): Op
      reads docker
    {
      op.(ok := error.None?, error := error, after := docker.log)
    }

    method Note(op: Op)
      requires Done(op)
      modifies this`ledger
      ensures Valid()
      ensures ledger.ops == old(ledger.ops) + [op] && ledger.tally == Include(old(ledger.tally), op)
      ensures ledger.blame == Blamed(old(ledger.blame), op)
    {
      TimelyNext(ledger.ops, op, started, deadlines);
      ledger := Append(ledger, op);
    }

    // A step no tally counts, but for what an inspection saw.
    method NoteUncounted(op: Op)
      requires Done(op) && !Counted(op.step)
      modifies this`ledger
      ensures Valid() && ledger.ops == old(ledger.ops) + [op]
      ensures ledger.tally == if SawStopped(op) then old(ledger.tally).(exit := op.seen) else old(ledger.tally)
      ensures ledger.blame == Blamed(old(ledger.blame), op)
    {
      Note(op);
    }

    // What a command that is let in gets.
    ghost predicate Granted(active: Active, timeout: nat)
      reads this, docker
    {
      var until := active.control.until;
      && until == Min(docker.now + timeout, Limit(deadlines))
      && (active.timeoutCode == LeaseExpired <==> until == deadlines.lease)
      && (active.timeoutCode == ExecutionTimeout <==> until == deadlines.timeout && until < deadlines.lease)
      && (active.timeoutCode == RuntimeCommandTimedOut <==> until < Limit(deadlines))
    }

    // active_command_control: nothing may start once a bound is reached or the job cancelled.
    method Begin(timeout: nat) returns (active: Result<Active, Failure>)
      requires Valid()
      modifies docker`now, docker`cancelled
      ensures Valid() && docker.now >= old(docker.now) && (old(docker.cancelled) ==> docker.cancelled)
      ensures active.Ok? ==>
        && !active.value.control.cleanup
        && docker.now < Limit(deadlines) && !docker.cancelled && Ordinary(active.value.timeoutCode)
        && Granted(active.value, timeout)
      ensures active.Err? ==> Ordinary(active.error) && (docker.cancelled || docker.now >= Limit(deadlines))
      ensures active.Err? ==> Reason(active.error)
      ensures Later(old(Here()), Here())
    {
      docker.Elapse();
      active := ActiveControl(docker.cancelled, docker.now, deadlines, timeout);
    }

    // An active operation is let in, with what it gets, or not at all.
    method Admit(step: Step) returns (op: Result<Op, Failure>, control: Control)
      requires Valid()
      modifies docker`now, docker`cancelled
      ensures Valid() && Later(old(Here()), Here())
      ensures op.Ok? ==>
        && !control.cleanup && op.value.active && Allowed(op.value, started, deadlines)
        && op.value == Issue(step, control, op.value.late)
      ensures op.Err? ==> Ordinary(op.error) && (docker.cancelled || docker.now >= Limit(deadlines)) && Reason(op.error)
    {
      var active := Begin(if step == StageInputs || step == CollectOutputs then ARTIFACT_BRIDGE_TIMEOUT
                          else RUNTIME_COMMAND_TIMEOUT);
      control := Control(0, false);
      if active.Err? {
        return Err(active.error), control;
      }
      control := active.value.control;
      op := Ok(Issue(step, control, active.value.timeoutCode));
    }

    // It is over, and noted; its failure is reported as the kind of its error asks.
    method NoteActive(op: Op, error: Option<Code>) returns (failure: Option<Failure>)
      requires docker.Valid() && Sound() && ledger.log == op.before
      requires op.active && Allowed(op, started, deadlines) && WellNoted(docker.plan, Over(op, error))
      modifies this`ledger
      ensures Valid() && ledger.ops == old(ledger.ops) + [Over(op, error)]
      ensures ledger.tally == Include(old(ledger.tally), Over(op, error))
      ensures Explained(old(Here()), failure) && (failure.None? <==> error.None?)
      ensures failure.Some? ==> Ordinary(failure.value)
    {
      hide Mine, Keeps, WellFormed, Told, Timely, TallyOf, BlameOf, WellNoted, Include;
      Note(Over(op, error));
      failure := if error.None? then None else Some(MapActive(error.value, op.late));
    }

    // The same of cleanup.
    method NoteCleanup(op: Op, error: Option<Code>)
      requires docker.Valid() && Sound() && ledger.log == op.before
      requires !op.active && Owed(op.step) && Allowed(op, started, deadlines) && WellNoted(docker.plan, Over(op, error))
      modifies this`ledger
      ensures Valid() && ledger.ops == old(ledger.ops) + [Over(op, error)]
      ensures ledger.tally == Include(old(ledger.tally), Over(op, error))
      ensures Cleaned(old(Here()), error)
    {
      hide Mine, Keeps, WellFormed, Told, Timely, TallyOf, BlameOf, WellNoted, Include;
      Note(Over(op, error));
    }

    // A command that changes no resource: verify, start, logs.
    method RunActive(step: Step, command: Command) returns (r: Result<(), Failure>)
      requires Valid() && Signals(step, command)
      modifies this`ledger, docker`now, docker`cancelled, docker`log
      ensures Valid() && docker.now >= old(docker.now)
      ensures ledger.tally == old(ledger.tally) || ledger.tally == Add(old(ledger.tally), step, r.Ok?)
      ensures r.Ok? ==> ledger.tally == Add(old(ledger.tally), step, true)
      ensures NotedIfAdmitted(old(ledger.ops), step, r.Ok?)
      ensures r.Err? ==> Ordinary(r.error)
      ensures Explained(old(Here()), FailureIn(r))
    {
      hide Mine, Keeps, WellFormed, Told, Timely, TallyOf, BlameOf, Composed, Allowed;
      var op, control := Admit(step);
      if op.Err? {
        return Err(op.error);
      }
      var done := docker.Perform(command, Workload, control);
      var failure := NoteActive(op.value, ErrorOf(done));
      r := if failure.None? then Ok(()) else Err(failure.value);
    }

    // remove_stale_container: by name, and only if the labels are the plan's.
    method RemoveStaleContainer() returns (r: Result<(), Failure>)
      requires Valid()
      modifies this`ledger, docker`world, docker`now, docker`cancelled, docker`log
      ensures Valid() && ledger.tally == old(ledger.tally)
      ensures r.Ok? ==> docker.plan.name !in docker.world.containers
      ensures r.Err? ==> Ordinary(r.error)
      ensures Later(old(Here()), Here())
      ensures ledger.blame.soil == old(ledger.blame.soil)
      ensures if r.Ok? then ledger.blame == old(ledger.blame)
              else old(ledger.blame.cause).None? ==>
                (Hindered() && Reason(r.error)) || (r.error == NameConflict && !Ours())
    {
      hide Mine, Keeps, WellFormed, Told, Timely, TallyOf, BlameOf, Composed;
      var existing := FindStaleContainer();
      if existing.Err? {
        return Err(existing.error);
      } else if existing.value.None? {
        return Ok(());
      } else if !LabelsContain(existing.value.value, docker.plan.labels) {
        return Err(NameConflict);
      }
      r := RemoveByName();
    }

    method FindStaleContainer() returns (r: Result<Option<Labels>, Failure>)
      requires Valid()
      modifies this`ledger, docker`now, docker`cancelled, docker`log
      ensures Valid() && ledger.tally == old(ledger.tally) && NotedIfAdmitted(old(ledger.ops), FindStale, r.Ok?)
      ensures r.Err? ==> Ordinary(r.error)
      ensures r.Ok? ==> (r.value.Some? <==> docker.plan.name in docker.world.containers)
      ensures r.Ok? && r.value.Some? ==> r.value.value == docker.world.containers[docker.plan.name].labels
      ensures Explained(old(Here()), FailureIn(r))
    {
      hide Mine, Keeps, WellFormed, Told, Timely, TallyOf, BlameOf, Composed, Allowed;
      var op, control := Admit(FindStale);
      if op.Err? {
        return Err(op.error);
      }
      var existing := docker.FindContainer(Workload, control);
      var failure := NoteActive(op.value, ErrorOf(existing));
      r := if failure.None? then Ok(existing.value) else Err(failure.value);
    }

    method RemoveByName() returns (r: Result<(), Failure>)
      requires Valid() && Ours()
      modifies this`ledger, docker`world, docker`now, docker`cancelled, docker`log
      ensures Valid() && ledger.tally == old(ledger.tally) && NotedIfAdmitted(old(ledger.ops), RemoveStale, r.Ok?)
      ensures r.Ok? ==> docker.plan.name !in docker.world.containers
      ensures r.Err? ==> Ordinary(r.error)
      ensures Explained(old(Here()), FailureIn(r))
    {
      hide Mine, Keeps, WellFormed, Told, Timely, TallyOf, BlameOf, Composed, Allowed;
      var op, control := Admit(RemoveStale);
      if op.Err? {
        return Err(op.error);
      }
      var removed := docker.RemoveContainer(Workload, control);
      var failure := NoteActive(op.value, ErrorOf(removed));
      r := if failure.None? then Ok(()) else Err(failure.value);
    }

    method PrepareStorage() returns (r: Result<(), Failure>)
      requires Valid() && docker.plan.artifactWorkspace
      modifies this`ledger, docker`world, docker`now, docker`cancelled, docker`log
      ensures Valid() && (r.Ok? ==> Settled()) && OtherContainersKept(docker.plan, old(docker.world), docker.world)
      ensures NotedIfAdmitted(old(ledger.ops), PrepareArtifacts, r.Ok?)
      ensures ledger.tally == old(ledger.tally) || ledger.tally == Add(old(ledger.tally), PrepareArtifacts, r.Ok?)
      ensures r.Ok? ==> ledger.tally == Add(old(ledger.tally), PrepareArtifacts, true)
      ensures r.Err? ==> Ordinary(r.error)
      ensures Explained(old(Here()), FailureIn(r))
    {
      hide Mine, Keeps, WellFormed, Told, Timely, TallyOf, BlameOf, Swept, StorageMade, Moved, Inner, Faults, Allowed;
      var op, control := Admit(PrepareArtifacts);
      if op.Err? {
        return Err(op.error);
      }
      var done := docker.PrepareArtifactStorage(control);
      var failure := NoteActive(op.value, ErrorOf(done));
      r := if failure.None? then Ok(()) else Err(failure.value);
    }

    method CreateWorkload() returns (r: Result<(), Failure>)
      requires Valid()
      modifies this`ledger, docker`world, docker`now, docker`cancelled, docker`log
      ensures Valid() && (r.Ok? ==> Ours()) && NotedIfAdmitted(old(ledger.ops), Create, r.Ok?)
      ensures ledger.tally == old(ledger.tally) || ledger.tally == Add(old(ledger.tally), Create, r.Ok?)
      ensures r.Ok? ==> ledger.tally == Add(old(ledger.tally), Create, true)
      ensures r.Err? ==> Ordinary(r.error)
      ensures Explained(old(Here()), FailureIn(r))
    {
      hide Mine, Keeps, WellFormed, Told, Timely, TallyOf, BlameOf, Composed, Allowed;
      var op, control := Admit(Create);
      if op.Err? {
        return Err(op.error);
      }
      NamesWrittenOut(docker.plan);
      var done := docker.CreateContainer(Workload, WorkloadMounts(), control);
      var failure := NoteActive(op.value, ErrorOf(done));
      r := if failure.None? then Ok(()) else Err(failure.value);
    }

    // run_artifact_bridge for the inputs or the outputs.
    method Bridge(step: Step) returns (r: Result<(), Failure>)
      requires Valid() && Ours() && (step == StageInputs || step == CollectOutputs)
      modifies this`ledger, docker`world, docker`now, docker`cancelled, docker`log
      ensures Valid() && Ours() && NotedIfAdmitted(old(ledger.ops), step, r.Ok?)
      ensures ledger.tally == old(ledger.tally) || ledger.tally == Add(old(ledger.tally), step, r.Ok?)
      ensures r.Ok? ==> ledger.tally == Add(old(ledger.tally), step, true)
      ensures r.Err? ==> Ordinary(r.error)
      ensures Explained(old(Here()), FailureIn(r))
    {
      hide Mine, Keeps, WellFormed, Told, Timely, TallyOf, BlameOf, Swept, StorageMade, Moved, Inner, Faults, Allowed;
      var op, control := Admit(step);
      if op.Err? {
        return Err(op.error);
      }
      WorkloadIsNoHelper(docker.plan);
      var done := MoveArtifacts(op.value, control);
      var failure := NoteActive(op.value, ErrorOf(done));
      r := if failure.None? then Ok(()) else Err(failure.value);
    }

    method MoveArtifacts(op: Op, control: Control) returns (r: Result<(), Code>)
      requires docker.Valid() && op == Issue(op.step, control, op.late)
      requires op.step == StageInputs || op.step == CollectOutputs
      modifies docker`world, docker`now, docker`cancelled, docker`log
      ensures docker.Valid() && docker.now >= old(docker.now)
      ensures OtherContainersKept(docker.plan, old(docker.world), docker.world)
      ensures WellNoted(docker.plan, Over(op, ErrorOf(r)))
    {
      hide Mine, Keeps, WellFormed, Told, Timely, TallyOf, BlameOf, Swept, StorageMade, Moved, Inner, Faults;
      if op.step == StageInputs {
        r := docker.StageInputs(control);
      } else {
        r := docker.CollectOutputs(control);
      }
    }

    method CleanupStorage() returns (r: Result<(), Code>)
      requires Valid()
      modifies this`ledger, docker`world, docker`now, docker`cancelled, docker`log
      ensures Valid() && ledger.tally == Add(old(ledger.tally), CleanupArtifacts, r.Ok?)
      ensures Noted(old(ledger.ops), CleanupArtifacts, r.Ok?)
      ensures docker.plan.artifactWorkspace && r.Ok? ==> NoArtifacts(docker.plan, docker.world)
      ensures docker.cleanupReliable && Removable(docker.plan, old(docker.world)) ==> r.Ok?
      ensures !docker.plan.artifactWorkspace ==> r.Ok?
      ensures OtherContainersKept(docker.plan, old(docker.world), docker.world)
      ensures Cleaned(old(Here()), ErrorOf(r))
    {
      hide Mine, Keeps, WellFormed, Told, Timely, TallyOf, BlameOf, Swept, StorageMade, Moved, Inner, Faults;
      var control := Control(docker.now + CLEANUP_COMMAND_TIMEOUT, true);
      var op := Issue(CleanupArtifacts, control, RuntimeCommandTimedOut);
      assert Allowed(op, started, deadlines);
      r := docker.CleanupArtifactStorage(control);
      NoteCleanup(op, ErrorOf(r));
    }

    // cleanup_partial_create: a create that failed may still have made the container.
    method CleanupPartialCreate() returns (r: Result<(), Failure>)
      requires Valid() && Settled()
      modifies this`ledger, docker`world, docker`now, docker`cancelled, docker`log
      ensures Valid() && FreedSince(old(ledger.tally))
      ensures ledger.tally == Add(old(ledger.tally), CleanupArtifacts, true)
           || ledger.tally == Add(old(ledger.tally), CleanupArtifacts, false)
      ensures r.Ok? || docker.cleanupReliable ==> NothingLeft(docker.plan, docker.world)
      ensures r.Err? ==> Ordinary(r.error)
      ensures Later(old(Here()), Here()) && ledger.blame.cause == old(ledger.blame.cause)
      ensures r.Err? && old(ledger.blame.soil).None? ==>
        (r.error == NameConflict && !Ours()) || (r.error.Runtime? && ledger.blame.soil == Some(r.error.code))
    {
      r := RemovePartialContainer();
      var artifacts := CleanupRest();
      if r.Ok? && artifacts.Err? {
        r := Err(Runtime(artifacts.error));
      }
    }

    // The storage after the workload container.
    method CleanupRest() returns (r: Result<(), Code>)
      requires Valid() && Settled()
      modifies this`ledger, docker`world, docker`now, docker`cancelled, docker`log
      ensures Valid() && FreedSince(old(ledger.tally))
      ensures ledger.tally == Add(old(ledger.tally), CleanupArtifacts, r.Ok?)
      ensures !old(IsWorkload(docker.plan, docker.world, docker.plan.name)) ==>
        && (r.Ok? ==> NothingLeft(docker.plan, docker.world))
        && (docker.cleanupReliable ==> r.Ok?)
      ensures Cleaned(old(Here()), ErrorOf(r))
    {
      if !IsWorkload(docker.plan, docker.world, docker.plan.name) && docker.plan.artifactWorkspace {
        MineIsRemovable(docker.plan, docker.world);
      }
      WorkloadIsNoHelper(docker.plan);
      r := CleanupStorage();
    }

    method RemovePartialContainer() returns (r: Result<(), Failure>)
      requires Valid()
      modifies this`ledger, docker`world, docker`now, docker`cancelled, docker`log
      ensures Valid() && ledger.tally == old(ledger.tally)
      ensures r.Ok? || docker.cleanupReliable ==> !IsWorkload(docker.plan, docker.world, docker.plan.name)
      ensures r.Err? ==> Ordinary(r.error)
      ensures Later(old(Here()), Here()) && ledger.blame.cause == old(ledger.blame.cause)
      ensures if r.Ok? then ledger.blame == old(ledger.blame)
              else old(ledger.blame.soil).None? ==>
                || (r.error == NameConflict && !Ours() && ledger.blame == old(ledger.blame))
                || (r.error.Runtime? && ledger.blame.soil == Some(r.error.code))
    {
      hide Mine, Keeps, WellFormed, Told, Timely, TallyOf, BlameOf, Composed, Noted, Allowed, WellNoted;
      var existing := FindPartialContainer();
      if existing.Err? {
        return Err(Runtime(existing.error));
      } else if existing.value.None? {
        return Ok(());
      } else if !LabelsContain(existing.value.value, docker.plan.labels) {
        return Err(NameConflict);
      }
      var removed := RemoveForCleanup(RemovePartial);
      r := if removed.Ok? then Ok(()) else Err(Runtime(removed.error));
    }

    method FindPartialContainer() returns (r: Result<Option<Labels>, Code>)
      requires Valid()
      modifies this`ledger, docker`now, docker`cancelled, docker`log
      ensures Valid() && ledger.tally == old(ledger.tally) && Noted(old(ledger.ops), FindPartial, r.Ok?)
      ensures r.Ok? ==> (r.value.Some? <==> docker.plan.name in docker.world.containers)
      ensures r.Ok? && r.value.Some? ==> r.value.value == docker.world.containers[docker.plan.name].labels
      ensures docker.cleanupReliable ==> r.Ok?
      ensures Cleaned(old(Here()), ErrorOf(r))
    {
      hide Mine, Keeps, WellFormed, Told, Timely, TallyOf, BlameOf, Composed;
      var control := Control(docker.now + CLEANUP_COMMAND_TIMEOUT, true);
      var op := Issue(FindPartial, control, RuntimeCommandTimedOut);
      assert Allowed(op, started, deadlines);
      r := docker.FindContainer(Workload, control);
      NoteCleanup(op, ErrorOf(r));
    }

    method RemoveForCleanup(step: Step) returns (r: Result<(), Code>)
      requires Valid() && Ours() && (step == RemovePartial || step == RemoveWorkload)
      modifies this`ledger, docker`world, docker`now, docker`cancelled, docker`log
      ensures Valid() && ledger.tally == Add(old(ledger.tally), step, r.Ok?) && Noted(old(ledger.ops), step, r.Ok?)
      ensures r.Ok? ==> docker.plan.name !in docker.world.containers
      ensures docker.cleanupReliable ==> r.Ok?
      ensures Cleaned(old(Here()), ErrorOf(r))
    {
      hide Mine, Keeps, WellFormed, Told, Timely, TallyOf, BlameOf, Composed;
      var control := Control(docker.now + CLEANUP_COMMAND_TIMEOUT, true);
      var op := Issue(step, control, RuntimeCommandTimedOut);
      assert Allowed(op, started, deadlines);
      r := docker.RemoveContainer(Workload, control);
      NoteCleanup(op, ErrorOf(r));
    }

    // remove_created_container: the workload first, then its storage; both are tried.
    method RemoveCreatedContainer() returns (r: Result<(), Failure>)
      requires Valid() && Settled() && Ours()
      modifies this`ledger, docker`world, docker`now, docker`cancelled, docker`log
      ensures Valid()
      ensures ClosedSince(old(ledger.tally)) && FreedSince(old(ledger.tally))
      ensures r.Ok? <==> ledger.tally.removed == old(ledger.tally.removed) + 1
                         && ledger.tally.cleaned == old(ledger.tally.cleaned) + 1
      ensures r.Err? ==> r.error == CleanupFailed
      ensures r.Ok? ==> NothingLeft(docker.plan, docker.world)
      ensures docker.cleanupReliable ==> r.Ok?
      ensures Later(old(Here()), Here()) && ledger.blame.cause == old(ledger.blame.cause)
      ensures if r.Ok? then ledger.blame == old(ledger.blame) else ledger.blame.soil.Some?
    {
      hide Mine, Keeps, WellFormed, Told, Timely, TallyOf, BlameOf, Composed, Noted, Add;
      var removed := RemoveForCleanup(RemoveWorkload);
      var cleaned := CleanupRest();
      RemovedAndCleaned(old(ledger.tally), removed.Ok?, cleaned.Ok?);
      r := if removed.Ok? && cleaned.Ok? then Ok(()) else Err(CleanupFailed);
    }

    // If a cleanup of the storage worked since tally `t`, none of the artifact names is left.
    ghost predicate FreedSince(t: Tally)
      reads this, docker
    {
      docker.plan.artifactWorkspace && ledger.tally.cleaned > t.cleaned ==> NoArtifacts(docker.plan, docker.world)
    }

    // One removal of the workload and one cleanup of its storage, and nothing else counted.
    ghost predicate ClosedSince(t: Tally)
      reads this
    {
      && ledger.tally.prepares == t.prepares && ledger.tally.prepared == t.prepared
      && ledger.tally.creates == t.creates && ledger.tally.created == t.created
      && ledger.tally.staged == t.staged && ledger.tally.collected == t.collected && ledger.tally.exit == t.exit
      && ledger.tally.started == t.started && ledger.tally.terms == t.terms
      && ledger.tally.removals == t.removals + 1 && ledger.tally.cleanups == t.cleanups + 1
    }

    method InspectActive() returns (r: Result<ContainerState, Failure>)
      requires Valid()
      modifies this`ledger, docker`now, docker`cancelled, docker`log
      ensures Valid() && docker.now >= old(docker.now) && (old(docker.cancelled) ==> docker.cancelled)
      ensures ledger.tally == Seen(old(ledger.tally), r) && NotedIfAdmitted(old(ledger.ops), Inspect, r.Ok?)
      ensures |ledger.ops| > |old(ledger.ops)| ==> ledger.ops[|old(ledger.ops)|].at >= old(docker.now)
      ensures r.Ok? ==>
        var op := ledger.ops[|old(ledger.ops)|];
        op.seen == Some(r.value) && op.after.After? && op.after.act.end == docker.now
      ensures r.Err? ==> Ordinary(r.error)
      ensures Explained(old(Here()), FailureIn(r))
    {
      hide Mine, Keeps, WellFormed, Told, Timely, TallyOf, BlameOf, Composed;
      var op, control := Admit(Inspect);
      if op.Err? {
        return Err(op.error);
      }
      var state := docker.Inspect(Workload, control);
      var failure := NoteActive(op.value.(seen := if state.Ok? then Some(state.value) else None), ErrorOf(state));
      r := if failure.None? then Ok(state.value) else Err(failure.value);
    }

    // The last inspection, if any, was long enough ago, unless the job has been cancelled since.
    ghost predicate Rested(from: nat, interval: nat)
      reads this, docker
    {
      from < |ledger.ops| && !docker.cancelled ==>
        Rests(ledger.ops[|ledger.ops| - 1], interval, Limit(deadlines), docker.now)
    }

    // One look, unless the job is over already.
    method LookOrGiveUp() returns (r: Result<ContainerState, Failure>)
      requires Valid()
      modifies this`ledger, docker`now, docker`cancelled, docker`log
      ensures Valid() && old(ledger.ops) <= ledger.ops && ledger.tally == Seen(old(ledger.tally), r)
      ensures r.Err? ==> Ordinary(r.error)
      ensures Explained(old(Here()), FailureIn(r))
      ensures ledger.ops == old(ledger.ops) ==> r.Err?
      ensures ledger.ops != old(ledger.ops) ==>
        && Noted(old(ledger.ops), Inspect, r.Ok?) && !old(docker.cancelled)
        && ledger.ops[|old(ledger.ops)|].at >= old(docker.now)
      ensures r.Ok? ==>
        var op := ledger.ops[|old(ledger.ops)|];
        op.seen == Some(r.value) && op.after.After? && op.after.act.end == docker.now
      ensures r.Ok? ==> !old(docker.cancelled) && old(docker.now) < Limit(deadlines)
    {
      hide Mine, Keeps, WellFormed, Told, Timely, TallyOf, BlameOf, Composed;
      docker.Elapse();
      var now := docker.now;
      if docker.cancelled {
        r := Err(ExecutionCancelled);
      } else if now >= deadlines.lease {
        r := Err(LeaseExpired);
      } else if now >= deadlines.timeout {
        r := Err(ExecutionTimeout);
      } else {
        r := InspectActive();
      }
    }

    // One turn of the watch.
    method LookOnce(ghost from: nat, ghost interval: nat) returns (r: Result<ContainerState, Failure>)
      requires Valid() && Watching(ledger.ops, from, interval, Limit(deadlines)) && Rested(from, interval)
      modifies this`ledger, docker`now, docker`cancelled, docker`log
      ensures Valid() && old(ledger.ops) <= ledger.ops && ledger.tally == Seen(old(ledger.tally), r)
      ensures r.Err? ==> Ordinary(r.error)
      ensures Explained(old(Here()), FailureIn(r))
      ensures r.Ok? && r.value.running ==>
        && Watching(ledger.ops, from, interval, Limit(deadlines)) && from < |ledger.ops|
        && ledger.ops[|ledger.ops| - 1].after.After? && ledger.ops[|ledger.ops| - 1].after.act.end == docker.now
      ensures !(r.Ok? && r.value.running) ==> Watched(ledger.ops, from, interval, Limit(deadlines), r)
      ensures r.Ok? ==> !old(docker.cancelled) && old(docker.now) < Limit(deadlines)
    {
      hide Mine, Keeps, WellFormed, Told, Timely, TallyOf, BlameOf, Composed, Watched, Explained;
      r := LookOrGiveUp();
      if ledger.ops == old(ledger.ops) {
        WatchEnds(ledger.ops, from, interval, Limit(deadlines), r);
      } else {
        assert ledger.ops == old(ledger.ops) + [ledger.ops[|old(ledger.ops)|]];
        WatchGoesOn(old(ledger.ops), ledger.ops[|old(ledger.ops)|], from, interval, Limit(deadlines), r);
      }
    }

    // monitor_container: it ends because every poll brings the limit closer.
    method MonitorContainer() returns (r: Result<ContainerState, Failure>)
      requires Valid()
      modifies this`ledger, docker`now, docker`cancelled, docker`log
      ensures Valid() && docker.now >= old(docker.now) && ledger.tally == Seen(old(ledger.tally), r)
      ensures r.Ok? ==> !r.value.running
      ensures r.Err? ==> Ordinary(r.error)
      ensures Explained(old(Here()), FailureIn(r))
      // What it adds to the log.
      ensures old(ledger.ops) <= ledger.ops
      ensures Watched(ledger.ops, |old(ledger.ops)|, policy.pollSeconds * 1_000_000_000, Limit(deadlines), r)
    {
      hide Mine, Keeps, WellFormed, Told, Timely, TallyOf, BlameOf, Composed, Watched;
      var interval := policy.pollSeconds * SECOND;
      ghost var from := |ledger.ops|;
      while true
        invariant Valid() && docker.now >= old(docker.now) && ledger.tally == old(ledger.tally)
        invariant Later(old(Here()), Here()) && ledger.blame == old(ledger.blame)
        invariant old(ledger.ops) <= ledger.ops && Watching(ledger.ops, from, interval, Limit(deadlines))
        invariant Rested(from, interval)
        decreases !docker.cancelled, Max(Limit(deadlines) - docker.now, 0)
      {
        r := LookOnce(from, interval);
        if r.Err? || !r.value.running {
          return;
        }
        if docker.cancelled {
          continue;
        }
        var remaining := Max(Limit(deadlines) - docker.now, 0);
        docker.Sleep(Min(interval, remaining));
      }
    }

    function CleanupUntil(deadline: int): Control
      reads docker
    {
      Control(docker.now + Min(CLEANUP_COMMAND_TIMEOUT, Max(deadline - docker.now, 0)), true)
    }

    function AddSeconds(now: int, seconds: nat): int {
      if now + seconds * SECOND > horizon then now else now + seconds * SECOND
    }

    // terminate_running_container: TERM, then polls until the container is seen stopped, and
    // KILL only once the force deadline has passed without that.
    method TerminateRunningContainer() returns (r: Result<(), Code>, began: int)
      requires Valid()
      modifies this`ledger, docker`now, docker`cancelled, docker`log
      ensures Valid() && old(docker.now) <= began <= docker.now
      ensures ledger.tally == Add(old(ledger.tally), SendTerm, true).(exit := ledger.tally.exit)
      ensures old(ledger.ops) <= ledger.ops
      ensures var soft, hard := policy.gracefulSeconds * 1_000_000_000, policy.forceSeconds * 1_000_000_000;
        var e := Escalation(
          began, if began + soft > horizon then began else began + soft,
          if began + hard > horizon then began else began + hard, policy.pollSeconds * 1_000_000_000);
        Escalated(ledger.ops, |old(ledger.ops)|, e, r.Ok?)
      ensures Later(old(Here()), Here()) && ledger.blame.cause == old(ledger.blame.cause)
      ensures r.Err? ==> ledger.blame.soil.Some?
    {
      hide Mine, Keeps, WellFormed, Told, Timely, TallyOf, BlameOf, Composed, Polling, Escalated, Add;
      docker.Elapse();
      began := docker.now;
      var e := Escalation(
        began, AddSeconds(began, policy.gracefulSeconds), AddSeconds(began, policy.forceSeconds),
        policy.pollSeconds * SECOND);
      r := Escalate(e);
    }

    method Escalate(e: Escalation) returns (r: Result<(), Code>)
      requires Valid() && e.began == docker.now && e.interval > 0
      modifies this`ledger, docker`now, docker`cancelled, docker`log
      ensures Valid() && docker.now >= old(docker.now)
      ensures ledger.tally == Add(old(ledger.tally), SendTerm, true).(exit := ledger.tally.exit)
      ensures old(ledger.ops) <= ledger.ops && Escalated(ledger.ops, |old(ledger.ops)|, e, r.Ok?)
      ensures Later(old(Here()), Here()) && ledger.blame.cause == old(ledger.blame.cause)
      ensures r.Err? ==> ledger.blame.soil.Some?
    {
      hide Mine, Keeps, WellFormed, Told, Timely, TallyOf, BlameOf, Composed, Polling, Escalated;
      r := TermNow(e);
      ghost var tally := ledger.tally;
      var done := false;
      while !done
        invariant Valid() && docker.now >= e.began && old(ledger.ops) <= ledger.ops
        invariant ledger.tally == tally.(exit := ledger.tally.exit)
        invariant Later(old(Here()), Here()) && ledger.blame.cause == old(ledger.blame.cause)
        invariant done && r.Err? ==> ledger.blame.soil.Some?
        invariant !done ==> Polling(ledger.ops, |old(ledger.ops)|, e, docker.now)
        invariant done ==> Escalated(ledger.ops, |old(ledger.ops)|, e, r.Ok?)
        decreases !done, e.force - docker.now
      {
        done, r := PollOrKill(|old(ledger.ops)|, e);
      }
    }

    method TermNow(e: Escalation) returns (r: Result<(), Code>)
      requires Valid() && e.began == docker.now
      modifies this`ledger, docker`now, docker`cancelled, docker`log
      ensures Valid() && docker.now >= old(docker.now) && ledger.tally == Add(old(ledger.tally), SendTerm, r.Ok?)
      ensures old(ledger.ops) <= ledger.ops && Polling(ledger.ops, |old(ledger.ops)|, e, docker.now)
      ensures Later(old(Here()), Here()) && ledger.blame.cause == old(ledger.blame.cause)
    {
      r := SendSignal(SendTerm, Command.Terminate, CleanupUntil(e.force));
    }

    // One turn of the escalation.
    method PollOrKill(ghost from: nat, e: Escalation) returns (done: bool, r: Result<(), Code>)
      requires Valid() && e.interval > 0 && e.began <= docker.now
      requires Polling(ledger.ops, from, e, docker.now)
      modifies this`ledger, docker`now, docker`cancelled, docker`log
      ensures Valid() && docker.now >= old(docker.now) && old(ledger.ops) <= ledger.ops
      ensures ledger.tally == old(ledger.tally).(exit := ledger.tally.exit)
      ensures done ==> Escalated(ledger.ops, from, e, r.Ok?)
      ensures !done ==> Polling(ledger.ops, from, e, docker.now) && old(docker.now) < e.force
      ensures !done ==> docker.now > old(docker.now)
      ensures Later(old(Here()), Here()) && ledger.blame.cause == old(ledger.blame.cause)
      ensures done && r.Err? ==> ledger.blame.soil.Some?
    {
      hide Mine, Keeps, WellFormed, Told, Timely, TallyOf, BlameOf, Composed, Polling, Escalated;
      docker.Elapse();
      PollsLater(ledger.ops, from, e, old(docker.now), docker.now);
      if docker.now >= e.force {
        r := KillNow(from, e);
        return true, r;
      }
      var now := docker.now;
      ghost var before := ledger.ops;
      r := Ok(());
      done := SeesStopped(CleanupUntil(e.force));
      ghost var op := ledger.ops[|before|];
      if done {
        PollsEnd(before, op, from, e, true);
      } else {
        var phase := if now < e.graceful then e.graceful else e.force;
        docker.Sleep(Min(e.interval, Max(phase - docker.now, 0)));
        PollsNext(before, op, from, e, docker.now);
      }
    }

    method KillNow(ghost from: nat, e: Escalation) returns (r: Result<(), Code>)
      requires Valid() && Polling(ledger.ops, from, e, docker.now) && docker.now >= e.force
      modifies this`ledger, docker`now, docker`cancelled, docker`log
      ensures Valid() && docker.now >= old(docker.now) && old(ledger.ops) <= ledger.ops
      ensures ledger.tally == old(ledger.tally) && Escalated(ledger.ops, from, e, r.Ok?)
      ensures Later(old(Here()), Here()) && ledger.blame.cause == old(ledger.blame.cause)
      ensures r.Err? ==> ledger.blame.soil.Some?
    {
      ghost var before := ledger.ops;
      r := SendSignal(SendKill, Command.Kill, Control(docker.now + CLEANUP_COMMAND_TIMEOUT, true));
      PollsEnd(before, ledger.ops[|before|], from, e, r.Ok?);
    }

    method SeesStopped(control: Control) returns (stopped: bool)
      requires Valid() && control.cleanup && docker.now <= control.until <= docker.now + 10_000_000_000
      modifies this`ledger, docker`now, docker`cancelled, docker`log
      ensures Valid() && docker.now >= old(docker.now)
      ensures ledger.tally == old(ledger.tally).(exit := ledger.tally.exit)
      ensures !stopped ==> ledger.tally == old(ledger.tally)
      ensures |ledger.ops| == |old(ledger.ops)| + 1
      ensures var op := ledger.ops[|old(ledger.ops)|];
        && ledger.ops == old(ledger.ops) + [op] && op.step == Inspect && op.at == old(docker.now)
        && op.until == control.until && op.after.After? && op.after.act.end == docker.now
        && (stopped <==> SawStopped(op))
      ensures Later(old(Here()), Here()) && ledger.blame.cause == old(ledger.blame.cause)
    {
      hide Mine, Keeps, WellFormed, Told, Timely, TallyOf, BlameOf, Composed;
      var op := Issue(Inspect, control, RuntimeCommandTimedOut);
      var state := docker.Inspect(Workload, control);
      NoteUncounted(Over(op, ErrorOf(state)).(seen := if state.Ok? then Some(state.value) else None));
      stopped := state.Ok? && !state.value.running;
    }

    method SendSignal(step: Step, command: Command, control: Control) returns (r: Result<(), Code>)
      requires Valid() && control.cleanup && docker.now <= control.until <= docker.now + 10_000_000_000
      requires Signals(step, command)
      modifies this`ledger, docker`now, docker`cancelled, docker`log
      ensures Valid() && docker.now >= old(docker.now) && ledger.tally == Add(old(ledger.tally), step, r.Ok?)
      ensures |ledger.ops| == |old(ledger.ops)| + 1
      ensures var op := ledger.ops[|old(ledger.ops)|];
        && ledger.ops == old(ledger.ops) + [op] && op.step == step && op.at == old(docker.now)
        && op.until == control.until && op.ok == r.Ok?
      ensures Later(old(Here()), Here()) && ledger.blame.cause == old(ledger.blame.cause)
      ensures r.Err? && step == SendKill ==> ledger.blame.soil.Some?
    {
      hide Mine, Keeps, WellFormed, Told, Timely, TallyOf, BlameOf, Composed;
      var op := Issue(step, control, RuntimeCommandTimedOut);
      r := docker.Perform(command, Workload, control);
      Note(Over(op, ErrorOf(r)));
    }

    // Since tally `t` the container was removed once and its storage cleaned up once; success
    // means both worked, after the outputs were collected from a container that exited well.
    ghost predicate Finished(t: Tally, r: Result<ContainerState, Failure>)
      reads this, docker
    {
      && ledger.tally.prepares == t.prepares && ledger.tally.prepared == t.prepared
      && ledger.tally.creates == t.creates && ledger.tally.created == t.created
      && ledger.tally.removals == t.removals + 1 && ledger.tally.cleanups == t.cleanups + 1
      && (r.Ok? ==>
            && ledger.tally.removed == t.removed + 1 && ledger.tally.cleaned == t.cleaned + 1
            && (docker.plan.artifactWorkspace ==> ledger.tally.staged && ledger.tally.collected)
            && ledger.tally.exit == Some(r.value)
            && !r.value.running && r.value.exitCode == Some(0) && !r.value.oomKilled)
      && (r.Ok? || r.error != CleanupFailed || docker.cleanupReliable ==> NothingLeft(docker.plan, docker.world))
      && (r.Err? ==> !Refusal(r.error))
      && FreedSince(t)
    }

    // finish_exited_container: logs and outputs first, then the removal, then the verdict.
    method FinishExitedContainer(state: ContainerState) returns (r: Result<ContainerState, Failure>)
      requires Valid() && Settled() && Ours() && !state.running
      requires ledger.tally.removals == 0 && ledger.tally.exit == Some(state)
      requires docker.plan.artifactWorkspace ==> ledger.tally.staged
      requires ledger.blame == BLAMELESS
      modifies this`ledger, docker`world, docker`now, docker`cancelled, docker`log
      ensures Valid()
      ensures Finished(old(ledger.tally), r) && (r.Ok? ==> r.value == state)
      ensures ledger.tally.started == old(ledger.tally).started && ledger.tally.terms == old(ledger.tally).terms
      ensures ledger.tally.exit == old(ledger.tally).exit
      ensures if r.Ok? then ledger.blame == BLAMELESS else Says(r.error)
      ensures docker.now >= old(docker.now)
    {
      hide Mine, Keeps, WellFormed, Told, Timely, TallyOf, BlameOf, Composed, NothingLeft, NoArtifacts, LabelsContain;
      var logs := CollectLogsAndOutputs();
      var removed := RemoveCreatedContainer();
      if removed.Err? {
        r := Err(removed.error);
      } else if logs.Err? {
        r := Err(logs.error);
      } else {
        r := VerdictOn(state);
      }
    }

    method CollectLogsAndOutputs() returns (r: Result<(), Failure>)
      requires Valid() && Ours() && ledger.tally.removals == 0
      modifies this`ledger, docker`world, docker`now, docker`cancelled, docker`log
      ensures Valid() && Ours()
      ensures ledger.tally == old(ledger.tally).(collected := ledger.tally.collected)
      ensures r.Ok? && docker.plan.artifactWorkspace ==> ledger.tally.collected
      ensures r.Err? ==> Ordinary(r.error)
      ensures Explained(old(Here()), FailureIn(r))
    {
      r := CollectLogs();
      if r.Ok? && docker.plan.artifactWorkspace {
        r := CollectArtifacts();
      }
    }

    method CollectLogs() returns (r: Result<(), Failure>)
      requires Valid()
      modifies this`ledger, docker`now, docker`cancelled, docker`log
      ensures Valid() && ledger.tally == old(ledger.tally) && NotedIfAdmitted(old(ledger.ops), Step.Logs, r.Ok?)
      ensures r.Err? ==> Ordinary(r.error)
      ensures Explained(old(Here()), FailureIn(r))
    {
      r := RunActive(Step.Logs, Command.Logs);
    }

    method CollectArtifacts() returns (r: Result<(), Failure>)
      requires Valid() && Ours() && ledger.tally.removals == 0
      modifies this`ledger, docker`world, docker`now, docker`cancelled, docker`log
      ensures Valid() && Ours() && NotedIfAdmitted(old(ledger.ops), CollectOutputs, r.Ok?)
      ensures ledger.tally == old(ledger.tally).(collected := old(ledger.tally).collected || r.Ok?)
      ensures r.Err? ==> Ordinary(r.error)
      ensures Explained(old(Here()), FailureIn(r))
    {
      hide Mine, Keeps, WellFormed, Told, Timely, TallyOf, BlameOf, Composed;
      r := Bridge(CollectOutputs);
    }

    method StageArtifacts() returns (r: Result<(), Failure>)
      requires Valid() && Ours() && ledger.tally.started == 0
      modifies this`ledger, docker`world, docker`now, docker`cancelled, docker`log
      ensures Valid() && Ours() && NotedIfAdmitted(old(ledger.ops), StageInputs, r.Ok?)
      ensures ledger.tally == old(ledger.tally).(staged := old(ledger.tally).staged || r.Ok?)
      ensures r.Err? ==> Ordinary(r.error)
      ensures Explained(old(Here()), FailureIn(r))
    {
      hide Mine, Keeps, WellFormed, Told, Timely, TallyOf, BlameOf, Composed;
      r := Bridge(StageInputs);
    }

    method StartWorkload() returns (r: Result<(), Failure>)
      requires Valid()
      modifies this`ledger, docker`now, docker`cancelled, docker`log
      ensures Valid() && NotedIfAdmitted(old(ledger.ops), Step.Start, r.Ok?)
      ensures ledger.tally == old(ledger.tally).(started := old(ledger.tally).started + Tick(r.Ok?))
      ensures r.Err? ==> Ordinary(r.error)
      ensures Explained(old(Here()), FailureIn(r))
    {
      hide Mine, Keeps, WellFormed, Told, Timely, TallyOf, BlameOf, Composed;
      r := RunActive(Step.Start, Command.Start);
    }

    method StageAndStart() returns (r: Result<(), Failure>)
      requires Valid() && Ours() && ledger.tally.started == 0 && !ledger.tally.staged
      modifies this`ledger, docker`world, docker`now, docker`cancelled, docker`log
      ensures Valid() && Ours()
      ensures ledger.tally == old(ledger.tally).(staged := ledger.tally.staged, started := Tick(r.Ok?))
      ensures r.Ok? && docker.plan.artifactWorkspace ==> ledger.tally.staged
      ensures r.Err? ==> Ordinary(r.error)
      ensures Explained(old(Here()), FailureIn(r))
    {
      r := Ok(());
      if docker.plan.artifactWorkspace {
        r := StageArtifacts();
      }
      if r.Ok? {
        r := StartWorkload();
      }
    }

    // A started container is stopped with a TERM unless it was seen to have exited by itself, and one
    // that was never started gets none.
    ghost predicate StoppedSince(t: Tally, r: Result<ContainerState, Failure>)
      reads this
    {
      var u := ledger.tally;
      && t.started <= u.started <= t.started + 1 && t.terms <= u.terms <= t.terms + 1
      && (u.started == t.started ==> u.terms == t.terms)
      && (u.started > t.started && u.terms == t.terms ==> u.exit.Some?)
      && (r.Ok? ==> u.started == t.started + 1 && u.terms == t.terms)
    }

    // Everything from a created container on.
    method RunCreated() returns (r: Result<ContainerState, Failure>)
      requires Valid() && Settled() && Ours() && ledger.tally.started == 0 && !ledger.tally.staged
      requires ledger.tally.removals == 0 && ledger.tally.exit == None
      requires ledger.blame == BLAMELESS
      modifies this`ledger, docker`world, docker`now, docker`cancelled, docker`log
      ensures Valid()
      ensures Finished(old(ledger.tally), r) && StoppedSince(old(ledger.tally), r)
      ensures if r.Ok? then ledger.blame == BLAMELESS else Says(r.error)
      ensures docker.now >= old(docker.now)
    {
      hide Mine, Keeps, WellFormed, Told, Timely, TallyOf, BlameOf, Composed, NothingLeft, NoArtifacts, LabelsContain;
      var ready := StageAndStart();
      if ready.Err? {
        var removed := RemoveCreatedContainer();
        return Err(if removed.Err? then removed.error else ready.error);
      }
      r := RunStarted();
    }

    // Everything from a started container on.
    method RunStarted() returns (r: Result<ContainerState, Failure>)
      requires Valid() && Settled() && Ours() && (docker.plan.artifactWorkspace ==> ledger.tally.staged)
      requires ledger.tally.removals == 0 && ledger.tally.exit == None
      requires ledger.blame == BLAMELESS
      modifies this`ledger, docker`world, docker`now, docker`cancelled, docker`log
      ensures Valid() && Finished(old(ledger.tally), r)
      ensures ledger.tally.started == old(ledger.tally).started
      ensures (ledger.tally.terms == old(ledger.tally).terms + 1 && r.Err?)
           || (ledger.tally.terms == old(ledger.tally).terms && ledger.tally.exit.Some?)
      ensures if r.Ok? then ledger.blame == BLAMELESS else Says(r.error)
      ensures docker.now >= old(docker.now)
    {
      hide Mine, Keeps, WellFormed, Told, Timely, TallyOf, BlameOf, Composed, NothingLeft, NoArtifacts, LabelsContain,
        Watched;
      var exited := MonitorContainer();
      if exited.Ok? {
        r := FinishExitedContainer(exited.value);
      } else {
        var failure := StopAndRemove(exited.error);
        r := Err(failure);
      }
    }

    // The way out of a container still running: stop it, remove it, and say why.
    method StopAndRemove(cause: Failure) returns (failure: Failure)
      requires Valid() && Settled() && Ours() && Ordinary(cause) && Hindered() && Reason(cause)
      modifies this`ledger, docker`world, docker`now, docker`cancelled, docker`log
      ensures Valid() && ClosedSince(Add(old(ledger.tally), SendTerm, true).(exit := ledger.tally.exit))
      ensures FreedSince(old(ledger.tally))
      ensures failure == cause || failure == CleanupFailed
      ensures failure != CleanupFailed || docker.cleanupReliable ==> NothingLeft(docker.plan, docker.world)
      ensures Later(old(Here()), Here()) && (failure == CleanupFailed ==> failure == cause || ledger.blame.soil.Some?)
    {
      var termination, _ := TerminateRunningContainer();
      var removal := RemoveCreatedContainer();
      failure := if termination.Err? || removal.Err? then CleanupFailed else cause;
    }

    // execute_inner.
    method Execute(request: Request) returns (r: Result<ContainerState, Failure>, startedAt: int)
      requires docker.Valid() && ledger.ops == []
      modifies this`started, this`deadlines, this`ledger, this`base, docker`world, docker`now, docker`cancelled,
               docker`log
      // Nothing is touched that does not carry every label of the plan.
      ensures docker.Valid() && Keeps(docker.plan, docker.origin, docker.world)
      // What Docker was asked to do is what the ledger says, and the ledger what Docker was asked to do.
      ensures ledger.ops != [] ==>
        ledger.plan == docker.plan && ledger.base == old(docker.log) && ledger.log == docker.log
      ensures ledger.ops == [] ==> docker.log == old(docker.log)
      // The run starts now, nothing starts before it, and no command of the job starts at or outlives
      // the nearest of the three bounds.
      ensures old(docker.now) <= startedAt <= docker.now
      ensures ledger.ops != [] ==>
        && request.lease.Some? && request.credential.Some?
        && Timely(ledger.ops, startedAt, Bounds(request, startedAt))
      ensures docker.mine == old(Mine(docker.plan, docker.world)) && Accounted(r)
      // A run that was let in succeeds unless something went wrong, and the failure says what.
      ensures r.Ok? ==> forall i | 0 <= i < |ledger.ops| :: ledger.ops[i].ok
      ensures r.Err? && !Refusal(r.error) ==>
        || (r.error == ExecutionCancelled && docker.cancelled)
        || (&& request.lease.Some? && request.credential.Some?
            && ErrorTold(ledger, r.error, docker.cancelled, docker.now, Bounds(request, startedAt), Ours()))
      // The workload is created as planned: its name, its labels and its mounts.
      ensures CreatesAsPlanned(docker.plan, ledger.ops)
      // Success means that the inputs were moved in and the outputs out, if there are any.
      ensures r.Ok? && docker.plan.artifactWorkspace ==> MovesFiles(docker.plan, ledger.ops)
      // No command at all unless every check passed, and a refusal names the check that did not.
      ensures ledger.ops != [] || docker.world != old(docker.world) ==> request.Admissible() && ValidPolicy(policy)
      ensures r == Err(ContractInvalid) <==>
        (|| !request.bundleValid || policy.pollSeconds == 0 || policy.silenceSeconds < policy.pollSeconds
         || policy.gracefulSeconds == 0 || policy.forceSeconds < policy.gracefulSeconds)
      ensures r == Err(IdentifierInvalid) ==> !request.identifiersValid
      ensures r == Err(WorkspaceMismatch) ==> !request.workspaceBound
      ensures r == Err(ImageNotAllowed) ==> !request.imageAllowed
      ensures r == Err(DeadlineInvalid) || r == Err(AssignmentExpired) ==>
        ExecutionDeadlines(request.lease, request.credential, request.timeoutSeconds, startedAt, horizon)
          == Err(r.error)
    {
      FreshLedger(ledger);
      hide Mine, Keeps, WellFormed, Told, Timely, TallyOf, BlameOf, ErrorTold, CreatesAsPlanned, MovesFiles;
      hide NothingLeft, NoArtifacts, Accounted, Composed, WellNoted, Allowed;
      NothingToAccountFor();
      startedAt := docker.now;
      if !request.bundleValid || !ValidPolicy(policy) {
        return Err(ContractInvalid), startedAt;
      } else if docker.cancelled {
        return Err(ExecutionCancelled), startedAt;
      } else if !request.identifiersValid {
        return Err(IdentifierInvalid), startedAt;
      } else if !request.workspaceBound {
        return Err(WorkspaceMismatch), startedAt;
      } else if !request.imageAllowed {
        return Err(ImageNotAllowed), startedAt;
      }
      docker.Elapse();
      startedAt := docker.now;
      var bounds := ExecutionDeadlines(request.lease, request.credential, request.timeoutSeconds, startedAt, horizon);
      if bounds.Err? {
        return Err(bounds.error), startedAt;
      }
      Open(bounds.value);
      r := RunAndTell();
    }

    // A run that did nothing leaves nothing behind.
    lemma {:induction false} NothingToAccountFor()
      requires ledger.tally == ZERO
      ensures forall error :: Accounted(Err(error))
    {
    }

    // The run proper, and what its ledger then tells.
    method RunAndTell() returns (r: Result<ContainerState, Failure>)
      requires Valid() && ledger.ops == [] && ledger.tally == ZERO && ledger.blame == BLAMELESS
      modifies this`ledger, docker`world, docker`now, docker`cancelled, docker`log
      ensures Valid() && Accounted(r) && (r.Err? ==> !Refusal(r.error)) && docker.now >= old(docker.now)
      ensures r.Ok? ==> forall i | 0 <= i < |ledger.ops| :: ledger.ops[i].ok
      ensures r.Err? ==> ErrorTold(ledger, r.error, docker.cancelled, docker.now, deadlines, Ours())
      ensures CreatesAsPlanned(docker.plan, ledger.ops)
      ensures r.Ok? && docker.plan.artifactWorkspace ==> MovesFiles(docker.plan, ledger.ops)
    {
      hide Mine, Keeps, WellFormed, Told, Timely, TallyOf, BlameOf, CleanupError, FailedFirst, NothingLeft, NoArtifacts;
      r := RunBounded();
      LedgerTells(ledger);
      CreatedAsPlanned(ledger);
      if r.Ok? && docker.plan.artifactWorkspace {
        FilesWereMoved(ledger);
      }
    }

    // The run starts now, with nothing noted.
    method Open(bounds: Deadlines)
      requires docker.Valid() && ValidPolicy(policy)
      modifies this`started, this`deadlines, this`ledger, this`base
      ensures Valid() && started == docker.now && deadlines == bounds && base == docker.log
      ensures ledger.ops == [] && ledger.tally == ZERO && ledger.blame == BLAMELESS
    {
      started, deadlines, base := docker.now, bounds, docker.log;
      ledger := Record(docker.plan, docker.log, [], ZERO, BLAMELESS, docker.log);
    }

    // What every way out of a run leaves behind.
    ghost predicate Accounted(r: Result<ContainerState, Failure>)
      reads this, docker
    {
      var t := ledger.tally;
      // What was prepared is cleaned up exactly once, and what was created is removed exactly once.
      && t.prepares <= 1 && t.creates <= 1 && t.cleanups <= 1
      && (t.prepares == 1 || t.creates == 1 ==> t.cleanups == 1)
      && t.removals == t.created
      // Success means all of it went well, inputs first and outputs before the removal.
      && (r.Ok? ==>
            && t.created == 1 && t.removed == 1 && t.cleaned == 1
            && (docker.plan.artifactWorkspace ==> t.prepared == 1 && t.staged && t.collected)
            && t.exit == Some(r.value) && !r.value.running && r.value.exitCode == Some(0) && !r.value.oomKilled)
      // A started container that was not seen to exit by itself was sent a TERM.
      && t.started <= t.created && t.terms <= t.started
      && (t.started == 1 && t.terms == 0 ==> t.exit.Some?)
      && (r.Ok? ==> t.started == 1 && t.terms == 0)
      // A cleanup that worked leaves no artifact name, whatever it had to clean up after.
      && (docker.plan.artifactWorkspace && t.cleaned == 1 ==> NoArtifacts(docker.plan, docker.world))
      // And nothing is left: after success; after any failure of a created container but a
      // failed cleanup; and, where cleanup commands work, after every cleanup of a world in which
      // nothing stood in the plan's way to begin with, and of no other.
      && (r.Ok? ==> NothingLeft(docker.plan, docker.world))
      && (t.created == 1 && r.Err? && r.error != CleanupFailed ==> NothingLeft(docker.plan, docker.world))
      && (docker.cleanupReliable && t.cleanups == 1 ==> (NothingLeft(docker.plan, docker.world) <==> Settled()))
      // Storage is prepared, and a container created, only in such a world.
      && (t.prepared == 1 || t.creates == 1 ==> Settled())
    }

    method VerifyAndClear() returns (r: Result<(), Failure>)
      requires Valid()
      modifies this`ledger, docker`world, docker`now, docker`cancelled, docker`log
      ensures Valid() && ledger.tally == old(ledger.tally)
      ensures r.Ok? ==> docker.plan.name !in docker.world.containers
      ensures r.Err? ==> Ordinary(r.error)
      ensures Later(old(Here()), Here())
      ensures ledger.blame.soil == old(ledger.blame.soil)
      ensures if r.Ok? then ledger.blame == old(ledger.blame)
              else old(ledger.blame.cause).None? ==>
                (Hindered() && Reason(r.error)) || (r.error == NameConflict && !Ours())
    {
      r := RunActive(Step.Verify, Command.Verify);
      if r.Ok? {
        r := RemoveStaleContainer();
      }
    }

    // The run proper, once every bound is known.
    method RunBounded() returns (r: Result<ContainerState, Failure>)
      requires Valid() && ledger.ops == [] && ledger.tally == ZERO && ledger.blame == BLAMELESS
      modifies this`ledger, docker`world, docker`now, docker`cancelled, docker`log
      ensures Valid() && Accounted(r) && (r.Err? ==> !Refusal(r.error))
      ensures if r.Ok? then ledger.blame == BLAMELESS else SaysAll(r.error)
      ensures docker.now >= old(docker.now)
    {
      hide Mine, Keeps, WellFormed, Told, Timely, TallyOf, BlameOf, Composed, NothingLeft, NoArtifacts, LabelsContain;
      var checked := VerifyAndClear();
      if checked.Err? {
        return Err(checked.error);
      }
      if docker.plan.artifactWorkspace {
        checked := PrepareOrCleanUp();
        if checked.Err? {
          return Err(checked.error);
        }
      }
      r := CreateAndRun();
    }

    // The storage is prepared, or what a failed preparation left is cleaned up.
    method PrepareOrCleanUp() returns (r: Result<(), Failure>)
      requires Valid() && docker.plan.artifactWorkspace && docker.plan.name !in docker.world.containers
      requires ledger.tally == ZERO && ledger.blame == BLAMELESS
      modifies this`ledger, docker`world, docker`now, docker`cancelled, docker`log
      ensures Valid() && docker.now >= old(docker.now)
      ensures r.Ok? ==> Settled() && ledger.tally == ZERO.(prepares := 1, prepared := 1) && ledger.blame == BLAMELESS
      ensures r.Err? ==> Accounted(Err(r.error)) && !Refusal(r.error) && SaysAll(r.error)
    {
      hide Mine, Keeps, WellFormed, Told, Timely, TallyOf, BlameOf, Composed, NothingLeft, NoArtifacts, LabelsContain;
      r := PrepareStorage();
      if r.Err? {
        WorkloadIsNoHelper(docker.plan);
        CleanupFailedPreparation();
      }
    }

    // The storage of a preparation that failed, with no workload about.
    method CleanupFailedPreparation()
      requires Valid() && docker.plan.artifactWorkspace && docker.plan.name !in docker.world.containers
      modifies this`ledger, docker`world, docker`now, docker`cancelled, docker`log
      ensures Valid() && FreedSince(old(ledger.tally))
      ensures ledger.tally == Add(old(ledger.tally), CleanupArtifacts, true)
           || ledger.tally == Add(old(ledger.tally), CleanupArtifacts, false)
      ensures docker.cleanupReliable ==> (NothingLeft(docker.plan, docker.world) <==> Settled())
      ensures Later(old(Here()), Here())
    {
      WorkloadIsNoHelper(docker.plan);
      if Settled() {
        MineIsRemovable(docker.plan, docker.world);
      }
      var _ := CleanupStorage();
      if NothingLeft(docker.plan, docker.world) {
        NoArtifactsIsMine(docker.plan, docker.world);
      }
    }

    method CreateAndRun() returns (r: Result<ContainerState, Failure>)
      requires Valid() && Settled()
      requires var n := if docker.plan.artifactWorkspace then 1 else 0;
        ledger.tally == ZERO.(prepares := n, prepared := n)
      requires ledger.blame == BLAMELESS
      modifies this`ledger, docker`world, docker`now, docker`cancelled, docker`log
      ensures Valid() && Accounted(r) && (r.Err? ==> !Refusal(r.error))
      ensures if r.Ok? then ledger.blame == BLAMELESS else SaysAll(r.error)
      ensures docker.now >= old(docker.now)
    {
      hide Mine, Keeps, WellFormed, Told, Timely, TallyOf, BlameOf, Composed, NothingLeft, NoArtifacts, LabelsContain,
        Noted, AsPlanned, WellNoted, Allowed;
      var created := CreateWorkload();
      if created.Err? {
        var failure := AbandonCreation(created.error);
        return Err(failure);
      }
      r := RunCreated();
    }

    // A creation that failed: what it may have left is cleaned up.
    method AbandonCreation(cause: Failure) returns (failure: Failure)
      requires Valid() && Settled() && Ordinary(cause) && Reason(cause) && ledger.blame.soil.None?
      requires var n := if docker.plan.artifactWorkspace then 1 else 0;
        ledger.tally == ZERO.(prepares := n, prepared := n)
        || ledger.tally == ZERO.(prepares := n, prepared := n, creates := 1)
      modifies this`ledger, docker`world, docker`now, docker`cancelled, docker`log
      ensures Valid() && Accounted(Err(failure)) && !Refusal(failure) && SaysAll(failure)
      ensures docker.now >= old(docker.now)
    {
      hide Mine, Keeps, WellFormed, Told, Timely, TallyOf, BlameOf, Composed, NothingLeft, NoArtifacts, LabelsContain;
      var cleaned := CleanupPartialCreate();
      failure := if cleaned.Err? then cleaned.error else cause;
    }
  }

  // What the assignment says, and what the checks that need nothing but it found.
  datatype Request = Request(
    bundleValid: bool, identifiersValid: bool, workspaceBound: bool, imageAllowed: bool,
    lease: Option<int>, credential: Option<int>, timeoutSeconds: nat)
  {
    predicate Admissible() {
      bundleValid && identifiersValid && workspaceBound && imageAllowed
    }
  }

  // The three bounds, of which the nearer expiry counts as the lease.
  function Bounds(request: Request, startedAt: int): Deadlines
    requires request.lease.Some? && request.credential.Some?
  {
    Deadlines(
      if request.lease.value <= request.credential.value then request.lease.value else request.credential.value,
      startedAt + request.timeoutSeconds * 1_000_000_000)
  }

  // What a failure of a run that was let in says: how the first of its own operations that failed is
  // reported; a bound that was reached; what is wrong with the exit; that the name is another's; or a
  // cleanup that failed.
  ghost predicate ErrorTold(ledger: Ledger, error: Failure, cancelled: bool, now: int, d: Deadlines, ours: bool) {
    || FailedFirst(ledger.ops, error)
    || (error == ExecutionCancelled && cancelled)
    || (error == LeaseExpired && now >= d.lease)
    || (error == ExecutionTimeout && now >= d.timeout)
    || (ledger.tally.exit.Some? && Judges(ledger.tally.exit.value, error))
    || (error == NameConflict && !ours)
    || (error == CleanupFailed && exists code :: CleanupError(ledger.ops, code))
    || (error.Runtime? && CleanupError(ledger.ops, error.code))
  }

  lemma {:induction false} LedgerTells(ledger: Ledger)
    ensures ledger.blame.cause.Some? ==> FailedFirst(ledger.ops, ledger.blame.cause.value)
    ensures ledger.blame.soil.Some? ==> CleanupError(ledger.ops, ledger.blame.soil.value)
    ensures !ledger.blame.failed ==> forall i | 0 <= i < |ledger.ops| :: ledger.ops[i].ok
  {
    CauseIsFirst(ledger.ops, |ledger.ops|);
    FailureIsThere(ledger.ops, |ledger.ops|);
  }

  lemma {:induction false} FreshLedger(ledger: Ledger)
    requires ledger.ops == []
    ensures ledger.tally == ZERO && ledger.blame == BLAMELESS
  {
  }

  lemma {:induction false} CreatedAsPlanned(ledger: Ledger)
    ensures CreatesAsPlanned(ledger.plan, ledger.ops)
  {
    forall i | 0 <= i < |ledger.ops| ensures WellNoted(ledger.plan, ledger.ops[i]) {
      ToldAt(ledger.plan, ledger.base, ledger.ops, |ledger.ops|, i);
    }
  }

  // Inputs went in before the container was started, outputs came out before it was removed.
  ghost predicate MovedIn(plan: Plan, ops: seq<Op>, i: nat)
    requires i < |ops|
  {
    && ops[i].step == StageInputs && Moved(plan, ops[i].before, ops[i].after, Import)
    && forall j | 0 <= j < i && ops[j].step == Step.Start :: !ops[j].ok
  }

  ghost predicate MovedOut(plan: Plan, ops: seq<Op>, i: nat)
    requires i < |ops|
  {
    && ops[i].step == CollectOutputs && Moved(plan, ops[i].before, ops[i].after, Export)
    && forall j | 0 <= j < i :: ops[j].step != RemoveWorkload
  }

  // The inputs were moved in and the outputs out, if there are any.
  ghost predicate MovesFiles(plan: Plan, ops: seq<Op>) {
    && (plan.inputs > 0 ==> exists i | 0 <= i < |ops| :: MovedIn(plan, ops, i))
    && (plan.outputs > 0 ==> exists i | 0 <= i < |ops| :: MovedOut(plan, ops, i))
  }

  // Wherever Docker was asked to create the workload, it was asked for the container as it is to be.
  ghost predicate CreatesAsPlanned(plan: Plan, ops: seq<Op>) {
    forall i | 0 <= i < |ops| && ops[i].step == Create ::
      && ops[i].after.After? && ops[i].after.act.deed.CreatedContainer?
      && AsPlanned(plan, ops[i].after.act.deed.name, ops[i].after.act.deed.made)
  }

  lemma {:induction false} InputsWereMoved(ledger: Ledger)
    requires ledger.tally.staged && ledger.plan.inputs > 0
    ensures exists i | 0 <= i < |ledger.ops| :: MovedIn(ledger.plan, ledger.ops, i)
  {
    var ops, n := ledger.ops, |ledger.ops|;
    TallyCountsSignals(ops, n);
    StagingCameFirst(ops, n);
    var i :| 0 <= i < n && ops[i].step == StageInputs && ops[i].ok
             && forall j | 0 <= j < i && ops[j].step == Step.Start :: !ops[j].ok;
    ToldAt(ledger.plan, ledger.base, ops, n, i);
    assert MovedIn(ledger.plan, ops, i);
  }

  lemma {:induction false} OutputsWereMoved(ledger: Ledger)
    requires ledger.tally.collected && ledger.plan.outputs > 0
    ensures exists i | 0 <= i < |ledger.ops| :: MovedOut(ledger.plan, ledger.ops, i)
  {
    var ops, n := ledger.ops, |ledger.ops|;
    TallyCountsWorkload(ops, n);
    CollectionCameFirst(ops, n);
    var i :| 0 <= i < n && ops[i].step == CollectOutputs && ops[i].ok
             && forall j | 0 <= j < i :: ops[j].step != RemoveWorkload;
    ToldAt(ledger.plan, ledger.base, ops, n, i);
    assert MovedOut(ledger.plan, ops, i);
  }

  lemma {:induction false} FilesWereMoved(ledger: Ledger)
    requires ledger.tally.staged && ledger.tally.collected
    ensures ledger.plan.inputs > 0 ==> exists i | 0 <= i < |ledger.ops| :: MovedIn(ledger.plan, ledger.ops, i)
    ensures ledger.plan.outputs > 0 ==> exists i | 0 <= i < |ledger.ops| :: MovedOut(ledger.plan, ledger.ops, i)
  {
    if ledger.plan.inputs > 0 {
      InputsWereMoved(ledger);
    }
    if ledger.plan.outputs > 0 {
      OutputsWereMoved(ledger);
    }
  }

  lemma {:induction false} WorkloadIsNoHelper(plan: Plan)
    ensures !IsHelper(plan, plan.name)
  {
    NamesDiffer(plan);
  }
}
