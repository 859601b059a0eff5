/**
 The agent's lifecycle phase, shared by the session supervisor and its control loop.

 A transition runs as a task of its own: between the moment it is asked for and the moment
 its answer is read, the other process may move.  A run is driven by a script that says
 which process moves next and what the environment does to it.
 */
module Lifecycle {
  import opened Outcome

  datatype Phase = Starting | Connecting | Online | Degraded | Stopping | TerminalFailure | Stopped

  predicate TransitionAllowed(current: Phase, next: Phase) {
    || current == next
    || match current
       case Starting => next in {Connecting, Stopping, TerminalFailure}
       case Connecting => next in {Online, Degraded, Stopping, TerminalFailure}
       case Online => next in {Degraded, Stopping, TerminalFailure}
       case Degraded => next in {Connecting, Stopping, TerminalFailure}
       case Stopping => next in {Stopped, TerminalFailure}
       case TerminalFailure => false
       case Stopped => false
  }

  // Phases in which a transition that is not allowed is quietly dropped.
  predicate Winding(p: Phase) {
    p in {Stopping, TerminalFailure, Stopped}
  }

  // ---------- The reporter ----------

  datatype Answer = Done | WriteFailed | InvalidTransition

  // The phase in memory, and every phase written to the state file so far.
  datatype Report = Report(phase: Phase, written: seq<Phase>)

  function Transition(r: Report, next: Phase, writeOk: bool): (Report, Answer) {
    if !TransitionAllowed(r.phase, next) then (r, if Winding(r.phase) then Done else InvalidTransition)
    else if !writeOk then (r, WriteFailed)
    else (Report(next, r.written + [next]), Done)
  }

  // The phases written form a path of the graph that ends in the current phase.
  predicate IsPath(written: seq<Phase>) {
    && written != [] && written[0] == Starting
    && forall i | 0 < i < |written| :: TransitionAllowed(written[i - 1], written[i])
  }

  class LifecycleReporter {
    var phase: Phase
    var written: seq<Phase>

    ghost predicate Valid()
      reads this
    {
      IsPath(written) && written[|written| - 1] == phase
    }

    constructor ()
      ensures Valid() && phase == Starting && written == [Starting]
    {
      phase, written := Starting, [Starting];
    }

    method TransitionTo(next: Phase, writeOk: bool) returns (answer: Answer)
      requires Valid()
      modifies this
      ensures Valid()
      ensures (Report(phase, written), answer) == Transition(Report(old(phase), old(written)), next, writeOk)
    {
      if !TransitionAllowed(phase, next) {
        return if Winding(phase) then Done else InvalidTransition;
      }
      if !writeOk {
        return WriteFailed;
      }
      written, phase := written + [next], next;
      answer := Done;
    }
  }

  // ---------- Reading the state file ----------

  datatype Persisted = Persisted(schemaMatches: bool, phase: Phase, ready: bool, failureKind: Option<string>)
  datatype Status = Status(phase: Phase, ready: bool, processActive: bool, lastObserved: Option<Phase>)

  predicate FailureKindValid(kind: Option<string>) {
    kind.Some? ==>
      && 0 < |kind.value| <= 64
      && forall i | 0 <= i < |kind.value| ::
           var c := kind.value[i]; 'a' <= c <= 'z' || '0' <= c <= '9' || c == '_'
  }

  predicate ValidPersisted(p: Persisted) {
    p.schemaMatches && p.ready == (p.phase == Online) && FailureKindValid(p.failureKind)
  }

  predicate ShouldBeActive(p: Phase) {
    p in {Starting, Connecting, Online, Degraded, Stopping}
  }

  // Ready means exactly that the agent is online and its process alive; a phase that needs a
  // live process is never shown without one.
  function EffectiveStatus(p: Persisted, lockHeld: bool): (s: Status)
    requires ValidPersisted(p)
    ensures s.ready <==> p.phase == Online && lockHeld
    ensures ShouldBeActive(s.phase) ==> lockHeld && s.phase == p.phase
    ensures s.processActive == lockHeld
    // A phase that needs no process is shown as it is; one whose process is gone is shown as stopped,
    // with the phase last seen beside it.
    ensures p.phase == TerminalFailure || p.phase == Stopped || lockHeld ==>
      s.phase == p.phase && s.lastObserved == None
    ensures p.phase != TerminalFailure && p.phase != Stopped && !lockHeld ==>
      s.phase == Stopped && s.lastObserved == Some(p.phase)
  {
    if ShouldBeActive(p.phase) && !lockHeld then Status(Stopped, false, false, Some(p.phase))
    else Status(p.phase, p.ready, lockHeld, None)
  }

  // ---------- The two processes ----------

  // Where the control loop goes when a transition it asked for is answered.
  datatype After = ToAttempt | ToConnected | ToStop | ToBackoff(restart: bool)

  datatype Control =
    | Top
    | Asked(next: Phase, after: After)         // the transition task is on its way
    | Answered(answer: Answer, after: After)   // it has run, and the loop has not looked yet
    | Attempting
    | Connected
    | Waiting(restart: bool)
    | Returned(ok: bool)

  datatype Supervisor =
    | Preparing
    | Selecting
    | StoppingAsked
    | AwaitingControl(stopped: bool)           // after the stopping transition
    | JoiningControl                           // after a worker gave up
    | FinishingWorkers(controlOk: bool)
    | Completing(ok: bool)
    | Ended(success: bool, last: Answer)

  datatype System = System(report: Report, control: Control, supervisor: Supervisor, shutdown: bool)

  const START := System(Report(Starting, [Starting]), Top, Preparing, false)

  datatype Choice =
    | RunTask(writeOk: bool)                   // the control loop's transition task runs
    | StepControl(event: ConnectionEvent)      // the control loop is polled
    | StepSupervisor(cause: SupervisorEvent, good: bool)

  datatype ConnectionEvent = Ready | Fails(stop: bool, restart: bool) | SeesShutdown | Elapses | ClearFails
  datatype SupervisorEvent = OperatorStops | ControlReturns | WorkerExits | Goes

  function StepTask(s: System, writeOk: bool): System {
    if !s.control.Asked? then s
    else
      var (report, answer) := Transition(s.report, s.control.next, writeOk);
      s.(report := report, control := Answered(answer, s.control.after))
  }

  function OnFailure(stop: bool, restart: bool): Control {
    if stop then Asked(TerminalFailure, ToStop) else Asked(Degraded, ToBackoff(restart))
  }

  function NextControl(c: Control, event: ConnectionEvent, shutdown: bool): Control {
    match c
    case Top => if shutdown then Returned(true) else Asked(Connecting, ToAttempt)
    case Answered(answer, ToAttempt) => if answer == Done then Attempting else Returned(false)
    case Answered(answer, ToConnected) => if answer == Done then Connected else Asked(Degraded, ToBackoff(false))
    case Answered(_, ToStop) => Returned(false)
    case Answered(answer, ToBackoff(restart)) => if answer == Done then Waiting(restart) else Returned(false)
    case Attempting =>
      (match event
       case Ready => Asked(Online, ToConnected)
       case Fails(stop, restart) => OnFailure(stop, restart)
       case _ => if shutdown then Returned(true) else c)
    case Connected =>
      (match event
       case Fails(stop, restart) => OnFailure(stop, restart)
       case _ => if shutdown then Returned(true) else c)
    case Waiting(restart) =>
      if restart then (if event == ClearFails then Asked(TerminalFailure, ToStop) else Waiting(false))
      else if shutdown then Returned(true)
      else if event == Elapses then Top else c
    case _ => c
  }

  // The supervisor polls the control loop only while it waits on it.
  predicate Polled(s: Supervisor) {
    s.Selecting? || s.AwaitingControl? || s.JoiningControl?
  }

  // complete_lifecycle.
  function Complete(r: Report, ok: bool, writeOk: bool): (Report, Answer) {
    if ok then Transition(r, Stopped, writeOk)
    else if r.phase == TerminalFailure then (r, Done)
    else Transition(r, TerminalFailure, writeOk)
  }

  function NextSupervisor(s: System, event: SupervisorEvent, good: bool): System {
    match s.supervisor
    case Preparing => s.(supervisor := if good then Selecting else Completing(false))
    case Selecting =>
      if event == OperatorStops then s.(supervisor := StoppingAsked)
      else if event == WorkerExits then s.(supervisor := JoiningControl, shutdown := true)
      else if s.control.Returned? then s.(supervisor := FinishingWorkers(s.control.ok), shutdown := true)
      else s
    case StoppingAsked =>
      var (report, answer) := Transition(s.report, Stopping, good);
      s.(report := report, supervisor := AwaitingControl(answer == Done), shutdown := true)
    case AwaitingControl(stopped) =>
      if !s.control.Returned? then s
      else if !stopped then s.(supervisor := Completing(false))
      else s.(supervisor := FinishingWorkers(s.control.ok))
    case JoiningControl =>
      if !s.control.Returned? then s else s.(supervisor := FinishingWorkers(false))
    case FinishingWorkers(controlOk) => s.(supervisor := Completing(controlOk && good))
    case Completing(ok) =>
      var (report, answer) := Complete(s.report, ok, good);
      s.(report := report, supervisor := Ended(ok, answer))
    case Ended(_, _) => s
  }

  function Step(s: System, c: Choice): System {
    match c
    case RunTask(writeOk) => StepTask(s, writeOk)
    case StepControl(event) =>
      if Polled(s.supervisor) then s.(control := NextControl(s.control, event, s.shutdown)) else s
    case StepSupervisor(event, good) => NextSupervisor(s, event, good)
  }

  function Run(script: seq<Choice>): System {
    if script == [] then START
    else Step(Run(script[..|script| - 1]), script[|script| - 1])
  }

  // ---------- What every reachable system keeps ----------

  // While nothing is winding down, the phase follows the control loop.
  predicate InStep(c: Control, phase: Phase) {
    match c
    case Top => phase in {Starting, Degraded}
    case Asked(next, ToAttempt) => next == Connecting && phase in {Starting, Degraded}
    case Asked(next, ToConnected) => next == Online && phase == Connecting
    case Asked(next, ToBackoff(_)) => next == Degraded && phase in {Connecting, Online}
    case Asked(next, ToStop) => next == TerminalFailure && phase in {Connecting, Online, Degraded}
    case Answered(answer, ToAttempt) => if answer == Done then phase == Connecting else phase in {Starting, Degraded}
    case Answered(answer, ToConnected) => phase == (if answer == Done then Online else Connecting)
    case Answered(answer, ToBackoff(_)) => answer == Done ==> phase == Degraded
    case Answered(answer, ToStop) => answer != Done
    case Attempting => phase == Connecting
    case Connected => phase == Online
    case Waiting(_) => phase == Degraded
    case Returned(ok) => true
  }

  predicate AsksRightly(c: Control) {
    c.Asked? ==>
      match c.after
      case ToAttempt => c.next == Connecting
      case ToConnected => c.next == Online
      case ToBackoff(_) => c.next == Degraded
      case ToStop => c.next == TerminalFailure
  }

  // The phase in which a run that ends this way belongs.
  function LastPhase(success: bool): Phase {
    if success then Stopped else TerminalFailure
  }

  // The control loop is bound to return an error.
  predicate Failing(c: Control) {
    (c.Answered? && c.after == ToStop) || c == Returned(false)
  }

  predicate Inv(s: System) {
    && IsPath(s.report.written) && s.report.written[|s.report.written| - 1] == s.report.phase
    && (!Winding(s.report.phase) ==> InStep(s.control, s.report.phase))
    && AsksRightly(s.control)
    && (s.control.Answered? ==> s.control.answer != InvalidTransition)
    && (s.control == Returned(true) ==> s.shutdown)
    && (s.shutdown ==> !s.supervisor.Preparing? && !s.supervisor.Selecting? && !s.supervisor.StoppingAsked?)
    && (s.supervisor.Preparing? ==> s.control == Top && s.report.phase == Starting)
    && (!s.supervisor.Ended? ==>
          && s.report.phase != Stopped
          && (s.report.phase == TerminalFailure ==> Failing(s.control))
          && (s.report.phase == Stopping ==>
                s.supervisor.AwaitingControl? || s.supervisor.FinishingWorkers? || s.supervisor.Completing?))
    && (s.supervisor == AwaitingControl(true) ==> Winding(s.report.phase))
    && (s.supervisor == FinishingWorkers(true) || s.supervisor == Completing(true) ==>
          s.report.phase == Stopping && s.control == Returned(true))
    && (s.supervisor.FinishingWorkers? ==> s.control.Returned?)
    && (s.supervisor.Completing? || s.supervisor.Ended? ==> s.control.Top? || s.control.Returned?)
    && (s.supervisor.Ended? ==>
          && s.supervisor.last != InvalidTransition
          && (s.supervisor.last == Done <==> s.report.phase == LastPhase(s.supervisor.success))
          && (s.supervisor.success ==> s.report.phase in {Stopping, Stopped} && s.control == Returned(true)))
  }

  lemma {:induction false} TaskKeepsInv(s: System, writeOk: bool)
    requires Inv(s)
    ensures Inv(StepTask(s, writeOk))
  {
  }

  lemma {:induction false} ControlKeepsInv(s: System, event: ConnectionEvent)
    requires Inv(s) && Polled(s.supervisor)
    ensures Inv(s.(control := NextControl(s.control, event, s.shutdown)))
  {
  }

  lemma {:induction false} SupervisorKeepsInv(s: System, event: SupervisorEvent, good: bool)
    requires Inv(s)
    ensures Inv(NextSupervisor(s, event, good))
  {
  }

  lemma {:induction false} RunKeepsInv(script: seq<Choice>)
    ensures Inv(Run(script))
  {
    if script != [] {
      var before := Run(script[..|script| - 1]);
      RunKeepsInv(script[..|script| - 1]);
      match script[|script| - 1]
      case RunTask(writeOk) => TaskKeepsInv(before, writeOk);
      case StepControl(event) =>
        if Polled(before.supervisor) {
          ControlKeepsInv(before, event);
        }
      case StepSupervisor(event, good) => SupervisorKeepsInv(before, event, good);
    }
  }

  // No process ever asks for a transition the reporter refuses.
  lemma {:induction false} NothingInvalidIsAsked(script: seq<Choice>, writeOk: bool)
    ensures var s := Run(script);
            && (s.control.Asked? ==> Transition(s.report, s.control.next, writeOk).1 != InvalidTransition)
            && (s.supervisor.StoppingAsked? ==> Transition(s.report, Stopping, writeOk).1 != InvalidTransition)
            && (s.supervisor.Completing? ==>
                  Complete(s.report, s.supervisor.ok, writeOk).1 != InvalidTransition)
  {
    RunKeepsInv(script);
  }

  lemma {:induction false} WindingLasts(written: seq<Phase>, i: nat, j: nat)
    requires IsPath(written) && i <= j < |written|
    requires Winding(written[i])
    ensures Winding(written[j])
    ensures written[i] != Stopping ==> written[j] == written[i]
    decreases j
  {
    if i < j {
      WindingLasts(written, i, j - 1);
    }
  }

  // Where each phase comes from: online only from connecting, connecting only from the start or from a
  // degraded session, stopped only from stopping.
  predicate ReachedFrom(before: Phase, phase: Phase) {
    match phase
    case Starting => false
    case Connecting => before == Starting || before == Degraded
    case Online => before == Connecting
    case Degraded => before == Connecting || before == Online
    case Stopping => before == Starting || before == Connecting || before == Online || before == Degraded
    case Stopped => before == Stopping
    case TerminalFailure => before != Stopped
  }

  // Whatever the interleaving, the state file goes along the graph, and once it says the
  // agent is stopping or has failed it never again says that it is connecting or online.
  lemma {:induction false} WrittenPhases(script: seq<Choice>)
    ensures var w := Run(script).report.written;
            && IsPath(w)
            && (forall i, j | 0 <= i <= j < |w| && Winding(w[i]) :: Winding(w[j]))
            && (forall i, j | 0 <= i <= j < |w| && w[i] in {TerminalFailure, Stopped} :: w[j] == w[i])
            && (forall i | 0 < i < |w| && w[i] != w[i - 1] :: ReachedFrom(w[i - 1], w[i]))
  {
    RunKeepsInv(script);
    var w := Run(script).report.written;
    forall i, j | 0 <= i <= j < |w| && Winding(w[i])
      ensures Winding(w[j]) && (w[i] != Stopping ==> w[j] == w[i])
    {
      WindingLasts(w, i, j);
    }
  }

  // A run that ends leaves Stopped on disk after success and TerminalFailure after an error,
  // exactly unless its last write failed; success comes only through Stopping.
  lemma {:induction false} EndedRuns(script: seq<Choice>)
    requires Run(script).supervisor.Ended?
    ensures var s := Run(script);
            && s.report.written != []
            && (s.supervisor.last == Done <==>
                  s.report.written[|s.report.written| - 1] == if s.supervisor.success then Stopped else TerminalFailure)
            && (s.supervisor.last != Done ==> s.supervisor.last == WriteFailed)
            && (s.supervisor.success ==> Stopping in s.report.written)
  {
    RunKeepsInv(script);
    var s := Run(script);
    if s.supervisor.success {
      StoppedAfterStopping(s.report.written);
    }
  }

  lemma {:induction false} StoppedAfterStopping(written: seq<Phase>)
    requires IsPath(written) && written[|written| - 1] in {Stopping, Stopped}
    ensures Stopping in written
  {
    if written[|written| - 1] == Stopped {
      assert |written| > 1;
      StoppedAfterStopping(written[..|written| - 1]);
    }
  }

  // ---------- What the processes get to ----------

  lemma {:induction false} NextStep(script: seq<Choice>, c: Choice)
    ensures Run(script + [c]) == Step(Run(script), c)
  {
    assert (script + [c])[..|script|] == script;
  }

  // One more choice after another.
  lemma {:induction false} ThreeSteps(script: seq<Choice>, a: Choice, b: Choice, c: Choice)
    ensures Run(script + [a, b, c]) == Step(Step(Step(Run(script), a), b), c)
  {
    hide Step;
    var one, two := script + [a], script + [a, b];
    assert two == one + [b] && script + [a, b, c] == two + [c];
    NextStep(script, a);
    NextStep(one, b);
    NextStep(two, c);
  }

  // The agent is up: its control loop is polled and nothing winds down.
  predicate Up(s: System) {
    s.supervisor == Selecting && !Winding(s.report.phase)
  }

  // A connection that becomes ready brings the agent online, if the file can be written; if it cannot,
  // the agent stays where it was and backs off.
  lemma {:induction false} ReadyGoesOnline(script: seq<Choice>, writeOk: bool, event: ConnectionEvent)
    requires Up(Run(script)) && Run(script).control == Attempting
    ensures var s := Run(script + [StepControl(Ready), RunTask(writeOk), StepControl(event)]);
      if writeOk then s.report == Report(Online, Run(script).report.written + [Online]) && s.control == Connected
      else s.report == Run(script).report && s.control == Asked(Degraded, ToBackoff(false))
  {
    RunKeepsInv(script);
    ThreeSteps(script, StepControl(Ready), RunTask(writeOk), StepControl(event));
  }

  // From the start, or after a wait that is over, the agent connects again.
  lemma {:induction false} WaitingReconnects(script: seq<Choice>, event: ConnectionEvent, next: ConnectionEvent)
    requires Up(Run(script)) && Run(script).control == Waiting(false)
    ensures var s := Run(script + [StepControl(Elapses), StepControl(event), RunTask(true)]);
      && s.report.phase == Connecting && s.control == Answered(Done, ToAttempt)
      && NextControl(s.control, next, s.shutdown) == Attempting
  {
    RunKeepsInv(script);
    ThreeSteps(script, StepControl(Elapses), StepControl(event), RunTask(true));
  }

  lemma {:induction false} TopConnects(script: seq<Choice>, event: ConnectionEvent, next: ConnectionEvent)
    requires Up(Run(script)) && Run(script).control == Top
    ensures var s := Run(script + [StepControl(event), RunTask(true), StepControl(next)]);
      s.report.phase == Connecting && s.control == Attempting
  {
    RunKeepsInv(script);
    ThreeSteps(script, StepControl(event), RunTask(true), StepControl(next));
  }

  // A connection that fails degrades the agent, which then waits, and fails it for good when the failure
  // says to stop.
  lemma {:induction false} FailureDegrades(script: seq<Choice>, stop: bool, restart: bool, event: ConnectionEvent)
    requires Up(Run(script)) && (Run(script).control == Attempting || Run(script).control == Connected)
    ensures var s := Run(script + [StepControl(Fails(stop, restart)), RunTask(true), StepControl(event)]);
      if stop then s.report.phase == TerminalFailure && s.control == Returned(false)
      else s.report.phase == Degraded && s.control == Waiting(restart)
  {
    RunKeepsInv(script);
    ThreeSteps(script, StepControl(Fails(stop, restart)), RunTask(true), StepControl(event));
  }

  // An agent that is to start over with a new session clears the old one first, and fails for good if it
  // cannot.
  lemma {:induction false} RestartClears(script: seq<Choice>, event: ConnectionEvent, next: ConnectionEvent)
    requires Up(Run(script)) && Run(script).control == Waiting(true)
    ensures event != ClearFails ==> Run(script + [StepControl(event)]) == Run(script).(control := Waiting(false))
    ensures var s := Run(script + [StepControl(ClearFails), RunTask(true), StepControl(next)]);
      s.report.phase == TerminalFailure && s.control == Returned(false)
  {
    RunKeepsInv(script);
    NextStep(script, StepControl(event));
    ThreeSteps(script, StepControl(ClearFails), RunTask(true), StepControl(next));
  }

  // An agent that the operator stops, whatever it is doing, stops well: `Stopping` is written, then the
  // control loop returns, the workers finish, and `Stopped` is written.
  lemma {:induction false} OperatorStopsWell(script: seq<Choice>, event: SupervisorEvent)
    requires Up(Run(script))
    requires Run(script).control in {Top, Attempting, Connected, Waiting(false)}
    ensures
      var stop :=
        script + [StepSupervisor(OperatorStops, true), StepSupervisor(event, true), StepControl(SeesShutdown)];
      var s := Run(stop + [StepSupervisor(event, true), StepSupervisor(event, true), StepSupervisor(event, true)]);
      && Run(stop).report.phase == Stopping && Run(stop).control == Returned(true)
      && s.supervisor == Ended(true, Done) && s.report.phase == Stopped
  {
    RunKeepsInv(script);
    ThreeSteps(script, StepSupervisor(OperatorStops, true), StepSupervisor(event, true), StepControl(SeesShutdown));
    var stop := script + [StepSupervisor(OperatorStops, true), StepSupervisor(event, true), StepControl(SeesShutdown)];
    ThreeSteps(stop, StepSupervisor(event, true), StepSupervisor(event, true), StepSupervisor(event, true));
  }

  // A worker that gives up takes the agent down: the control loop is told to return, and the run ends as
  // a failure, unless the agent had failed already.
  lemma {:induction false} WorkerExitFails(script: seq<Choice>, event: SupervisorEvent, good: bool)
    requires Up(Run(script)) && Run(script).control in {Top, Attempting, Connected, Waiting(false)}
    ensures
      var down :=
        script + [StepSupervisor(WorkerExits, good), StepControl(SeesShutdown), StepSupervisor(event, good)];
      var s := Run(down + [StepSupervisor(event, good), StepSupervisor(event, true), StepSupervisor(event, good)]);
      && Run(down).supervisor == FinishingWorkers(false) && Run(down).shutdown
      && s.supervisor == Ended(false, Done) && s.report.phase == TerminalFailure
  {
    RunKeepsInv(script);
    ThreeSteps(script, StepSupervisor(WorkerExits, good), StepControl(SeesShutdown), StepSupervisor(event, good));
    var down := script + [StepSupervisor(WorkerExits, good), StepControl(SeesShutdown), StepSupervisor(event, good)];
    ThreeSteps(down, StepSupervisor(event, good), StepSupervisor(event, true), StepSupervisor(event, good));
  }

  // The record the reporter leaves on disk for a phase.
  function Record(phase: Phase, kind: Option<string>): (p: Persisted)
    ensures FailureKindValid(kind) ==> ValidPersisted(p)
    ensures p.phase == phase && p.failureKind == kind
  {
    Persisted(true, phase, phase == Online, kind)
  }

  // A reader that sees readiness in any reachable state sees it of a session that reached
  // its ready point, never of one still connecting, backing off or stopping.
  lemma {:induction false} ReadyMeansConnected(script: seq<Choice>, kind: Option<string>, lockHeld: bool)
    requires FailureKindValid(kind)
    requires EffectiveStatus(Record(Run(script).report.phase, kind), lockHeld).ready
    ensures lockHeld
    ensures var s := Run(script);
            && Online in s.report.written && Stopping !in s.report.written
            && !s.supervisor.Preparing? && s.supervisor != AwaitingControl(true)
            && !s.control.Top? && !s.control.Attempting? && !s.control.Waiting?
            && (s.control.Asked? ==> s.control.next in {Degraded, TerminalFailure})
  {
    RunKeepsInv(script);
    var w := Run(script).report.written;
    if Stopping in w {
      var i :| 0 <= i < |w| && w[i] == Stopping;
      WindingLasts(w, i, |w| - 1);
    }
  }
}
