/**
 The remote-cancellation watcher: it polls the control plane for a directive and cancels
 the assignment when told to, when it loses its authority, or when the control plane has
 been silent too long.

 Time is counted in nanoseconds, and timers are ideal: a sleep ends exactly on time.
 */
module CancellationWatcher {
  import opened Outcome

  const NANOS_PER_SECOND: nat := 1_000_000_000

  datatype ErrorKind =
    | Transport | ServerError | Unauthorized | Revoked | Expired | Conflict | NotFound
    | SessionChanged | LocalState | OtherKind

  // What one control request came back with.
  datatype Reply =
    | Directive(cancel: bool)
    | ContractInvalid
    | Refused(kind: ErrorKind)
    | RequestTaskFailed

  datatype Reason =
    | ControlSilenceExceeded | ControlContractInvalid | JobCancelled | ControlTaskFailed
    | SessionAuthorityLost | AssignmentAuthorityLost | LocalAuthorityLost | ControlAuthorityLost

  predicate Retryable(kind: ErrorKind) {
    kind == Transport || kind == ServerError
  }

  function AuthorityLost(kind: ErrorKind): Reason {
    match kind
    case Unauthorized => SessionAuthorityLost
    case Revoked => SessionAuthorityLost
    case Expired => SessionAuthorityLost
    case Conflict => AssignmentAuthorityLost
    case NotFound => AssignmentAuthorityLost
    case SessionChanged => LocalAuthorityLost
    case LocalState => LocalAuthorityLost
    case _ => ControlAuthorityLost
  }

  // The reason an answer gives to cancel, if any.
  function ReasonFor(reply: Reply): Option<Reason> {
    match reply
    case Directive(cancel) => if cancel then Some(JobCancelled) else None
    case ContractInvalid => Some(ControlContractInvalid)
    case Refused(kind) => if Retryable(kind) then None else Some(AuthorityLost(kind))
    case RequestTaskFailed => Some(ControlTaskFailed)
  }

  // ---------- What comes from outside ----------

  // When in a turn of the loop the worker's own stop signal comes.
  datatype Signal = Never | BeforeRequest | WhileWaiting | WhileSleeping

  // One turn: the signal, how long the request takes, and what it comes back with.
  datatype Turn = Turn(signal: Signal, delay: nat, reply: Reply)

  // ---------- What the watcher does with it ----------

  // An answer it heard, when it came, and when the last one before it that had authority came.
  datatype Answer = Answer(at: nat, since: nat, reply: Reply)

  // `Stopped` is the worker's own signal; `StillWatching` is where the turns given run out.
  datatype Ending = Stopped | Cancelled(reason: Reason, at: nat) | StillWatching

  // When the control plane last spoke with authority, up to this answer.
  function LastSpoken(a: Answer): nat {
    if a.reply.Directive? then a.at else a.since
  }

  function LastAuthoritative(start: nat, answers: seq<Answer>): nat {
    if answers == [] then start else LastSpoken(answers[|answers| - 1])
  }

  // When the next request goes out.
  function NextRequest(start: nat, interval: nat, answers: seq<Answer>): nat {
    if answers == [] then start else answers[|answers| - 1].at + interval
  }

  // The reply of a turn was heard: no signal came first, and it was in time.
  predicate Hears(turn: Turn, a: Answer, asked: nat, since: nat, silence: nat) {
    && (turn.signal == Never || turn.signal == WhileSleeping)
    && a == Answer(asked + turn.delay, since, turn.reply) && a.at < since + silence
  }

  // After this answer the watcher asks again.
  predicate GoesOn(turn: Turn) {
    ReasonFor(turn.reply).None? && turn.signal != WhileSleeping
  }

  // The i-th answer is the reply of the i-th turn, at its own time, and nothing before it gave the
  // watcher cause to stop.
  predicate HeardAt(script: seq<Turn>, interval: nat, silence: nat, start: nat, answers: seq<Answer>, i: nat)
    requires i < |answers| && i < |script|
  {
    if i == 0 then Hears(script[0], answers[0], start, start, silence)
    else
      && Hears(script[i], answers[i], answers[i - 1].at + interval, LastSpoken(answers[i - 1]), silence)
      && GoesOn(script[i - 1])
  }

  predicate Heard(script: seq<Turn>, interval: nat, silence: nat, start: nat, answers: seq<Answer>) {
    && |answers| <= |script|
    && forall i | 0 <= i < |answers| :: HeardAt(script, interval, silence, start, answers, i)
  }

  // How the watch ends after the last answer it heard.
  predicate EndsAs(script: seq<Turn>, interval: nat, silence: nat, start: nat, answers: seq<Answer>, ending: Ending)
    requires |answers| <= |script|
  {
    var n := |answers|;
    var asked, limit := NextRequest(start, interval, answers), LastAuthoritative(start, answers) + silence;
    if n > 0 && ReasonFor(script[n - 1].reply).Some? then
      ending == Cancelled(ReasonFor(script[n - 1].reply).value, answers[n - 1].at)
    else if n > 0 && script[n - 1].signal == WhileSleeping then ending == Stopped
    else if n < |script| && script[n].signal == BeforeRequest then ending == Stopped
    else if asked >= limit then ending == Cancelled(ControlSilenceExceeded, limit)
    else if n == |script| then ending == StillWatching
    else if script[n].signal == WhileWaiting then ending == Stopped
    else ending == Cancelled(ControlSilenceExceeded, limit) && asked + script[n].delay >= limit
  }

  function PollInterval(pollSeconds: nat): nat {
    Max(pollSeconds, 1) * NANOS_PER_SECOND
  }

  function MaxSilence(pollSeconds: nat, silenceSeconds: nat): nat {
    Max(silenceSeconds, Max(pollSeconds, 1)) * NANOS_PER_SECOND
  }

  // The loop, between the turns.
  predicate Underway(script: seq<Turn>, interval: nat, silence: nat, start: nat, answers: seq<Answer>, now: int) {
    && Heard(script, interval, silence, start, answers)
    && (answers != [] ==> GoesOn(script[|answers| - 1]))
    && now == Min(NextRequest(start, interval, answers), LastAuthoritative(start, answers) + silence)
  }

  lemma {:induction false} HearsNext(script: seq<Turn>, interval: nat, silence: nat, start: nat,
                                     answers: seq<Answer>, a: Answer)
    requires Heard(script, interval, silence, start, answers) && |answers| < |script|
    requires answers != [] ==> GoesOn(script[|answers| - 1])
    requires Hears(
      script[|answers|], a, NextRequest(start, interval, answers), LastAuthoritative(start, answers), silence)
    ensures Heard(script, interval, silence, start, answers + [a])
  {
    var more := answers + [a];
    forall i | 0 <= i < |more| ensures HeardAt(script, interval, silence, start, more, i) {
      if i < |answers| {
        assert HeardAt(script, interval, silence, start, answers, i);
      }
    }
  }

  // watch_remote_cancellation, for any turns.
  method WatchFor(script: seq<Turn>, interval: nat, silence: nat, start: nat)
    returns (ending: Ending, answers: seq<Answer>)
    requires interval > 0
    ensures Heard(script, interval, silence, start, answers)
    ensures EndsAs(script, interval, silence, start, answers, ending)
  {
    var now, lastAuthoritative := start, start;
    answers := [];
    while |answers| < |script|
      invariant |answers| <= |script| && lastAuthoritative == LastAuthoritative(start, answers) <= now
      invariant Underway(script, interval, silence, start, answers, now)
      decreases |script| - |answers|
    {
      var turn := script[|answers|];
      if turn.signal == BeforeRequest {
        return Stopped, answers;
      }
      var remaining := lastAuthoritative + silence - now;
      if remaining == 0 {
        return Cancelled(ControlSilenceExceeded, now), answers;
      }
      if turn.signal == WhileWaiting {
        return Stopped, answers;
      } else if turn.delay >= remaining {
        return Cancelled(ControlSilenceExceeded, now + remaining), answers;
      }
      now := now + turn.delay;
      var answer := Answer(now, lastAuthoritative, turn.reply);
      HearsNext(script, interval, silence, start, answers, answer);
      answers := answers + [answer];
      if turn.reply.Directive? {
        lastAuthoritative := now;
      }
      var verdict := ReasonFor(turn.reply);
      if verdict.Some? {
        return Cancelled(verdict.value, now), answers;
      }
      remaining := lastAuthoritative + silence - now;
      if remaining > 0 {
        if turn.signal == WhileSleeping {
          return Stopped, answers;
        }
        now := now + Min(interval, remaining);
      }
    }
    ending := if now == lastAuthoritative + silence then Cancelled(ControlSilenceExceeded, now) else StillWatching;
  }

  method Watch(script: seq<Turn>, pollSeconds: nat, silenceSeconds: nat, start: nat)
    returns (ending: Ending, answers: seq<Answer>)
    ensures Heard(script, PollInterval(pollSeconds), MaxSilence(pollSeconds, silenceSeconds), start, answers)
    ensures EndsAs(script, PollInterval(pollSeconds), MaxSilence(pollSeconds, silenceSeconds), start, answers, ending)
    // In seconds, of which a poll interval has at least one and the silence at least a poll interval.
    ensures var interval := 1_000_000_000 * if pollSeconds == 0 then 1 else pollSeconds;
      var silence := if silenceSeconds * 1_000_000_000 < interval then interval else silenceSeconds * 1_000_000_000;
      && Justified(interval, silence, start, answers, ending) && OnTime(script, interval, silence, start, answers)
      && StoppedBySignal(script, answers, ending)
  {
    ending, answers := WatchFor(script, PollInterval(pollSeconds), MaxSilence(pollSeconds, silenceSeconds), start);
    CancelledForCause(
      script, PollInterval(pollSeconds), MaxSilence(pollSeconds, silenceSeconds), start, answers, ending);
    HeardOnTime(script, PollInterval(pollSeconds), MaxSilence(pollSeconds, silenceSeconds), start, answers);
    SignalsAreHeeded(
      script, PollInterval(pollSeconds), MaxSilence(pollSeconds, silenceSeconds), start, answers, ending);
  }

  // ---------- What that comes to ----------

  // The turns leave no choice: there is one list of answers and one ending.
  lemma {:induction false} WatchIsDetermined(script: seq<Turn>, interval: nat, silence: nat, start: nat,
                                             a: seq<Answer>, b: seq<Answer>, x: Ending, y: Ending)
    requires Heard(script, interval, silence, start, a) && EndsAs(script, interval, silence, start, a, x)
    requires Heard(script, interval, silence, start, b) && EndsAs(script, interval, silence, start, b, y)
    ensures a == b && x == y
  {
    SameAnswers(script, interval, silence, start, a, b, Min(|a|, |b|));
    NoAnswerMissed(script, interval, silence, start, a, b, x);
    NoAnswerMissed(script, interval, silence, start, b, a, y);
  }

  lemma {:induction false} SameAnswers(script: seq<Turn>, interval: nat, silence: nat, start: nat,
                                       a: seq<Answer>, b: seq<Answer>, n: nat)
    requires Heard(script, interval, silence, start, a) && Heard(script, interval, silence, start, b)
    requires n <= |a| && n <= |b|
    ensures forall i | 0 <= i < n :: a[i] == b[i]
  {
    if n > 0 {
      SameAnswers(script, interval, silence, start, a, b, n - 1);
      assert HeardAt(script, interval, silence, start, a, n - 1) && HeardAt(script, interval, silence, start, b, n - 1);
    }
  }

  // A watch does not end before an answer it could still hear.
  lemma {:induction false} NoAnswerMissed(script: seq<Turn>, interval: nat, silence: nat, start: nat,
                                          a: seq<Answer>, b: seq<Answer>, x: Ending)
    requires Heard(script, interval, silence, start, a) && Heard(script, interval, silence, start, b)
    requires forall i | 0 <= i < |a| && i < |b| :: a[i] == b[i]
    ensures |a| < |b| ==> !EndsAs(script, interval, silence, start, a, x)
  {
    if |a| < |b| {
      assert HeardAt(script, interval, silence, start, b, |a|);
    }
  }

  // An answer after which the watcher asks again, if no signal stops it.
  predicate Harmless(reply: Reply) {
    reply == Directive(false) || reply == Refused(Transport) || reply == Refused(ServerError)
  }

  // What each answer makes of the watch, kind by kind.
  predicate Decides(a: Answer, ending: Ending) {
    match a.reply
    case Directive(cancel) => cancel ==> ending == Cancelled(JobCancelled, a.at)
    case ContractInvalid => ending == Cancelled(ControlContractInvalid, a.at)
    case RequestTaskFailed => ending == Cancelled(ControlTaskFailed, a.at)
    case Refused(kind) =>
      && (kind == Unauthorized || kind == Revoked || kind == Expired ==>
            ending == Cancelled(SessionAuthorityLost, a.at))
      && (kind == Conflict || kind == NotFound ==> ending == Cancelled(AssignmentAuthorityLost, a.at))
      && (kind == SessionChanged || kind == LocalState ==> ending == Cancelled(LocalAuthorityLost, a.at))
      && (kind == OtherKind ==> ending == Cancelled(ControlAuthorityLost, a.at))
  }

  // The control plane spoke with authority last at this time: at its last directive, or at the start.
  predicate SpokeLast(start: nat, answers: seq<Answer>, n: nat, at: nat)
    requires n <= |answers|
  {
    if n == 0 then at == start
    else if answers[n - 1].reply.Directive? then at == answers[n - 1].at
    else SpokeLast(start, answers, n - 1, at)
  }

  // The last answer decides; after a harmless one, or none, only the worker's signal ends the watch, or
  // exactly the end of the silence since the control plane spoke last; no answer before it decides, and
  // the watch goes on only while the next request can still be made within the silence.
  ghost predicate Justified(interval: nat, silence: nat, start: nat, answers: seq<Answer>, ending: Ending) {
    && (forall i | 0 <= i < |answers| - 1 :: Harmless(answers[i].reply))
    && (answers != [] ==> Decides(answers[|answers| - 1], ending))
    && (answers == [] || Harmless(answers[|answers| - 1].reply) ==>
          ending.Cancelled? ==>
            && ending.reason == ControlSilenceExceeded
            && exists at: nat :: SpokeLast(start, answers, |answers|, at) && ending.at == at + silence)
    && (ending.Cancelled? ==> exists at: nat :: SpokeLast(start, answers, |answers|, at) && ending.at <= at + silence)
    && (ending == StillWatching ==>
          var next := if answers == [] then start else answers[|answers| - 1].at + interval;
          exists at: nat :: SpokeLast(start, answers, |answers|, at) && next < at + silence)
  }

  lemma {:induction false} AuthorityIsTheLast(script: seq<Turn>, interval: nat, silence: nat, start: nat,
                                              answers: seq<Answer>, n: nat)
    requires Heard(script, interval, silence, start, answers) && n <= |answers|
    ensures SpokeLast(start, answers, n, if n == 0 then start else LastSpoken(answers[n - 1]))
  {
    if n > 0 {
      AuthorityIsTheLast(script, interval, silence, start, answers, n - 1);
      assert HeardAt(script, interval, silence, start, answers, n - 1);
    }
  }

  lemma {:induction false} CancelledForCause(script: seq<Turn>, interval: nat, silence: nat, start: nat,
                                             answers: seq<Answer>, ending: Ending)
    requires Heard(script, interval, silence, start, answers)
    requires EndsAs(script, interval, silence, start, answers, ending)
    ensures Justified(interval, silence, start, answers, ending)
  {
    forall i | 0 <= i < |answers| ensures answers[i].reply == script[i].reply {
      assert HeardAt(script, interval, silence, start, answers, i);
    }
    forall i | 0 <= i < |answers| - 1 ensures Harmless(answers[i].reply) {
      assert HeardAt(script, interval, silence, start, answers, i + 1);
    }
    AuthorityIsTheLast(script, interval, silence, start, answers, |answers|);
    if answers != [] {
      assert HeardAt(script, interval, silence, start, answers, |answers| - 1);
    }
  }

  // When each answer came, turn by turn: the first after its own delay, each other one poll interval and
  // its own delay after the one before, and every one within the silence since the control plane spoke last.
  predicate OnTime(script: seq<Turn>, interval: nat, silence: nat, start: nat, answers: seq<Answer>) {
    && |answers| <= |script|
    && forall i | 0 <= i < |answers| :: OnTimeAt(script, interval, silence, start, answers, i)
  }

  predicate OnTimeAt(script: seq<Turn>, interval: nat, silence: nat, start: nat, answers: seq<Answer>, i: nat)
    requires i < |answers| <= |script|
  {
    && answers[i].reply == script[i].reply
    && answers[i].at == (if i == 0 then start else answers[i - 1].at + interval) + script[i].delay
    && SpokeLast(start, answers, i, answers[i].since) && answers[i].at < answers[i].since + silence
  }

  // The worker's signal stops the watch when it comes, and nothing else stops it so.
  predicate StoppedBySignal(script: seq<Turn>, answers: seq<Answer>, ending: Ending)
    requires |answers| <= |script|
  {
    var n := |answers|;
    && (ending == Stopped ==>
          || (n > 0 && script[n - 1].signal == WhileSleeping)
          || (n < |script| && (script[n].signal == BeforeRequest || script[n].signal == WhileWaiting)))
    && (n > 0 && Harmless(answers[n - 1].reply) && script[n - 1].signal == WhileSleeping ==> ending == Stopped)
    && (forall i | 0 <= i < n :: script[i].signal != BeforeRequest && script[i].signal != WhileWaiting)
    && (forall i | 0 <= i < n - 1 :: script[i].signal == Never)
    && (ending == StillWatching ==> n == |script|)
  }

  lemma {:induction false} HeardOnTime(script: seq<Turn>, interval: nat, silence: nat, start: nat,
                                       answers: seq<Answer>)
    requires Heard(script, interval, silence, start, answers)
    ensures OnTime(script, interval, silence, start, answers)
  {
    forall i | 0 <= i < |answers| ensures OnTimeAt(script, interval, silence, start, answers, i) {
      assert HeardAt(script, interval, silence, start, answers, i);
      AuthorityIsTheLast(script, interval, silence, start, answers, i);
    }
  }

  lemma {:induction false} SignalsAreHeeded(script: seq<Turn>, interval: nat, silence: nat, start: nat,
                                            answers: seq<Answer>, ending: Ending)
    requires Heard(script, interval, silence, start, answers)
    requires EndsAs(script, interval, silence, start, answers, ending)
    ensures StoppedBySignal(script, answers, ending)
  {
    forall i | 0 <= i < |answers|
      ensures script[i].signal != BeforeRequest && script[i].signal != WhileWaiting
      ensures i < |answers| - 1 ==> script[i].signal == Never
      ensures answers[i].reply == script[i].reply
    {
      assert HeardAt(script, interval, silence, start, answers, i);
      if i < |answers| - 1 {
        assert HeardAt(script, interval, silence, start, answers, i + 1);
      }
    }
  }

  predicate FailsToAnswer(turn: Turn) {
    turn.signal == Never && turn.reply.Refused? && Retryable(turn.reply.kind)
  }

  // Retryable failures only use the silence up: when after some answers nothing else comes, the watch
  // cancels exactly at the end of the silence since the last authoritative one among them, after no
  // more turns than fit into it.
  lemma {:induction false} FailuresRunOut(script: seq<Turn>, interval: nat, silence: nat, start: nat,
                                          answers: seq<Answer>, ending: Ending, k: nat)
    requires Heard(script, interval, silence, start, answers)
    requires EndsAs(script, interval, silence, start, answers, ending)
    requires k <= |answers| && (k > 0 ==> GoesOn(script[k - 1]))
    requires forall i | k <= i < |script| :: FailsToAnswer(script[i])
    requires (|script| - k) * interval >= silence
    ensures ending == Cancelled(ControlSilenceExceeded, LastAuthoritative(start, answers[..k]) + silence)
  {
    FailuresSpread(script, interval, silence, start, answers, k, |answers|);
    if |answers| > 0 {
      assert |answers| == k ==> answers[..k] == answers;
      assert HeardAt(script, interval, silence, start, answers, |answers| - 1);
    }
  }

  lemma {:induction false} AnswersComeAfter(script: seq<Turn>, interval: nat, silence: nat, start: nat,
                                            answers: seq<Answer>, i: nat)
    requires Heard(script, interval, silence, start, answers) && i < |answers|
    ensures answers[i].since <= answers[i].at
  {
    assert HeardAt(script, interval, silence, start, answers, i);
    if i > 0 {
      AnswersComeAfter(script, interval, silence, start, answers, i - 1);
    }
  }

  lemma {:induction false} FailuresSpread(script: seq<Turn>, interval: nat, silence: nat, start: nat,
                                          answers: seq<Answer>, k: nat, n: nat)
    requires Heard(script, interval, silence, start, answers) && k <= n <= |answers|
    requires forall i | k <= i < |script| :: FailsToAnswer(script[i])
    ensures LastAuthoritative(start, answers[..n]) == LastAuthoritative(start, answers[..k])
    ensures NextRequest(start, interval, answers[..n]) >= LastAuthoritative(start, answers[..k]) + (n - k) * interval
  {
    if n > k {
      FailuresSpread(script, interval, silence, start, answers, k, n - 1);
      assert HeardAt(script, interval, silence, start, answers, n - 1);
      assert (n - k) * interval == (n - 1 - k) * interval + interval;
    } else if k > 0 {
      AnswersComeAfter(script, interval, silence, start, answers, k - 1);
    }
  }
}
