/**
 The remote session's control channel: control sequence numbers and telemetry batches over
 any number of connections, against the control plane that keeps the authoritative counts.

 A run is driven by a script of what the environment does: which messages and answers get
 through, what the server decides, which local writes succeed.
 */
module SessionChannel {
  import opened Outcome

  const MAX_BATCH: nat := 64

  function SaturatingNext(n: nat): nat {
    if n < U64_MAX then n + 1 else n
  }

  function Range(first: nat, count: nat): seq<nat> {
    seq(count, i requires 0 <= i => first + i)
  }

  lemma {:induction false} RangeJoin(first: nat, a: nat, b: nat)
    ensures Range(first, a) + Range(first + a, b) == Range(first, a + b)
  {
  }

  // ---------- State and script ----------

  // What the control plane has recorded for the session.
  datatype Server = Server(last: nat, samples: nat)

  // The variables of one connection.
  datatype Link = Link(sequence: nat, telemetry: nat, buffer: seq<nat>, active: bool)

  datatype Event =
    | SessionStarted
    | Opened(ready: nat)
    | Sent(number: nat, last: nat, batch: seq<nat>, samples: nat, accepted: bool)
    | Rejected(ack: nat, last: nat)

  datatype State = State(
    server: Server,
    persisted: nat, persistedSamples: nat,  // the agent's state file
    link: Option<Link>,
    log: seq<Event>)

  // `arrives`: the message reached the server; `answered`: its answer reached the agent;
  // `writes`: how many writes of the state file succeed.
  datatype Choice =
    | Open(renewed: bool, connects: bool, telemetry: bool)
    | Heartbeat(arrives: bool, answered: bool, writes: nat)
    | Telemetry(force: bool, collected: Option<nat>, signed: bool,
                arrives: bool, valid: bool, lookup: bool, answered: bool, writes: nat)
    | Drop

  const START := State(Server(0, 0), 0, 0, None, [])

  // ---------- One step ----------

  function Close(s: State): State {
    s.(link := None)
  }

  // start_or_resume saves the server's counts, a new session's being zero; then the ready
  // message reports the control number once more.
  function StepOpen(s: State, renewed: bool, connects: bool, telemetry: bool): State {
    var server := if renewed then Server(0, 0) else s.server;
    var saved := s.(server := server, persisted := server.last, persistedSamples := server.samples, link := None,
                    log := if renewed then s.log + [SessionStarted] else s.log);
    if !connects then saved
    else saved.(
           link := Some(Link(Max(server.last, saved.persisted), saved.persistedSamples, [], telemetry)),
           log := saved.log + [Opened(server.last)])
  }

  function StepHeartbeat(s: State, l: Link, arrives: bool, answered: bool, writes: nat): State {
    var n := SaturatingNext(l.sequence);
    var accepted := arrives && n > s.server.last;
    var t := s.(log := s.log + [Sent(n, s.server.last, [], s.server.samples, accepted)],
                server := if accepted then s.server.(last := n) else s.server);
    if !accepted || !answered || writes < 1 then Close(t)
    else t.(persisted := n, link := Some(l.(sequence := n)))
  }

  // The batch a forced or ordinary collection would submit.
  function Collected(l: Link, force: bool, count: nat): seq<nat> {
    var kept := if force then [] else l.buffer;
    kept + Range(l.telemetry + |kept| + 1, count)
  }

  function StepTelemetry(s: State, l: Link, batchSize: nat, c: Choice): State
    requires c.Telemetry?
  {
    var kept := if c.force then [] else l.buffer;
    if !l.active then s
    else if l.telemetry + |kept| + 1 > U64_MAX then Close(s)
    else if c.collected.None? then s.(link := Some(l.(buffer := kept)))
    else
      var batch := Collected(l, c.force, c.collected.value);
      if |batch| > MAX_BATCH then Close(s)
      else if !c.force && |batch| < batchSize then s.(link := Some(l.(buffer := batch)))
      else if batch == [] || !c.signed then Close(s)
      else Submit(s, l, batch, c)
  }

  function Submit(s: State, l: Link, batch: seq<nat>, c: Choice): State
    requires c.Telemetry? && batch != []
  {
    var n := SaturatingNext(l.sequence);
    var accepted := c.arrives && c.valid && n > s.server.last && batch[0] == s.server.samples + 1;
    var end := batch[|batch| - 1];
    var t := s.(log := s.log + [Sent(n, s.server.last, batch, s.server.samples, accepted)],
                server := if accepted then Server(n, end) else s.server);
    if !c.arrives || !c.answered then Close(t)
    else if accepted then
      if c.writes < 1 then Close(t)
      else if c.writes < 2 then Close(t.(persisted := n))
      else t.(persisted := n, persistedSamples := end,
              link := Some(l.(sequence := n, telemetry := end, buffer := [])))
    else
      // telemetry_rejected: the server answers with its own number, or 0 if it cannot look it up.
      var ack := if c.lookup then s.server.last else 0;
      var u := t.(log := t.log + [Rejected(ack, s.server.last)]);
      if c.writes < 1 then Close(u)
      else u.(persisted := ack, link := Some(l.(sequence := ack, buffer := [], active := false)))
  }

  function Step(s: State, c: Choice, batchSize: nat): State {
    match c
    case Open(renewed, connects, telemetry) => StepOpen(s, renewed, connects, telemetry)
    case Drop => Close(s)
    case Heartbeat(arrives, answered, writes) =>
      if s.link.None? then s else StepHeartbeat(s, s.link.value, arrives, answered, writes)
    case Telemetry(_, _, _, _, _, _, _, _) =>
      if s.link.None? then s else StepTelemetry(s, s.link.value, batchSize, c)
  }

  function Run(script: seq<Choice>, batchSize: nat): State {
    if script == [] then START
    else Step(Run(script[..|script| - 1], batchSize), script[|script| - 1], batchSize)
  }

  // ---------- What every state keeps ----------

  // A rejection whose number the server could not look up.
  predicate Misreported(e: Event) {
    e.Rejected? && e.ack != e.last
  }

  predicate AfterMisreport(log: seq<Event>, i: nat)
    requires i <= |log|
  {
    i > 0 && Misreported(log[i - 1])
  }

  predicate LinkInv(s: State, l: Link, batchSize: nat) {
    && s.log != []
    && l.telemetry == s.server.samples
    && l.buffer == Range(l.telemetry + 1, |l.buffer|)
    && |l.buffer| < batchSize
    && l.sequence == (if Misreported(s.log[|s.log| - 1]) then 0 else s.server.last)
    && (Misreported(s.log[|s.log| - 1]) ==> !l.active && s.server.last > 0)
  }

  predicate Inv(s: State, batchSize: nat) {
    && s.persisted <= s.server.last <= U64_MAX
    && s.persistedSamples <= s.server.samples
    && (s.link.Some? ==> LinkInv(s, s.link.value, batchSize))
  }

  lemma {:induction false} SubmitKeepsInv(s: State, l: Link, batch: seq<nat>, c: Choice, batchSize: nat)
    requires 1 <= batchSize && Inv(s, batchSize) && s.link == Some(l) && c.Telemetry?
    requires batch != [] && batch == Range(s.server.samples + 1, |batch|)
    ensures Inv(Submit(s, l, batch, c), batchSize)
  {
  }

  lemma {:induction false} TelemetryKeepsInv(s: State, c: Choice, batchSize: nat)
    requires 1 <= batchSize <= MAX_BATCH && Inv(s, batchSize) && c.Telemetry? && s.link.Some?
    ensures Inv(Step(s, c, batchSize), batchSize)
  {
    var l := s.link.value;
    if c.collected.Some? {
      var kept := if c.force then [] else l.buffer;
      RangeJoin(l.telemetry + 1, |kept|, c.collected.value);
      var batch := Collected(l, c.force, c.collected.value);
      if batch != [] {
        SubmitKeepsInv(s, l, batch, c, batchSize);
      }
    }
  }

  lemma {:induction false} StepKeepsInv(s: State, c: Choice, batchSize: nat)
    requires 1 <= batchSize <= MAX_BATCH && Inv(s, batchSize)
    ensures Inv(Step(s, c, batchSize), batchSize)
  {
    if c.Telemetry? && s.link.Some? {
      TelemetryKeepsInv(s, c, batchSize);
    }
  }

  lemma {:induction false} RunKeepsInv(script: seq<Choice>, batchSize: nat)
    requires 1 <= batchSize <= MAX_BATCH
    ensures Inv(Run(script, batchSize), batchSize)
  {
    if script != [] {
      RunKeepsInv(script[..|script| - 1], batchSize);
      StepKeepsInv(Run(script[..|script| - 1], batchSize), script[|script| - 1], batchSize);
    }
  }

  // ---------- What every log shows ----------

  // A message is numbered next, unless the agent was just misinformed and starts over.
  predicate NumberedNext(log: seq<Event>) {
    forall i | 0 <= i < |log| && log[i].Sent? ::
      && (AfterMisreport(log, i) ==> log[i].number == 1 && log[i].last > 0)
      && (!AfterMisreport(log, i) ==> log[i].number == SaturatingNext(log[i].last))
  }

  // The first message of a connection goes by the number its ready message reported.
  predicate OpensInStep(log: seq<Event>) {
    forall i | 0 < i < |log| && log[i].Sent? && log[i - 1].Opened? :: log[i].last == log[i - 1].ready
  }

  predicate SameSession(log: seq<Event>, i: nat, j: nat)
    requires j <= |log|
  {
    forall k | i < k < j :: log[k] != SessionStarted
  }

  predicate AcceptedBy(log: seq<Event>, i: nat, last: nat)
    requires i < |log|
  {
    log[i].Sent? && log[i].accepted ==> log[i].number <= last
  }

  // What the server accepted in a session, it counts from then on.
  predicate CountedOn(log: seq<Event>, last: nat) {
    && (forall i | 0 <= i < |log| && SameSession(log, i, |log|) :: AcceptedBy(log, i, last))
    && (forall i, j | 0 <= i < j < |log| && log[j].Sent? && SameSession(log, i, j) :: AcceptedBy(log, i, log[j].last))
  }

  // Number 1 was accepted in the session before position j.
  ghost predicate FirstAccepted(log: seq<Event>, j: nat)
    requires j <= |log|
  {
    exists i | 0 <= i < j :: log[i].Sent? && log[i].accepted && log[i].number == 1 && SameSession(log, i, j)
  }

  ghost predicate StartedAtOne(log: seq<Event>, last: nat) {
    && (last > 0 ==> FirstAccepted(log, |log|))
    && (forall j | 0 <= j < |log| && log[j].Sent? && log[j].last > 0 :: FirstAccepted(log, j))
  }

  // The samples of all batches accepted in the current session, in order.
  function AcceptedSamples(log: seq<Event>): seq<nat> {
    if log == [] then []
    else
      var e := log[|log| - 1];
      if e == SessionStarted then []
      else AcceptedSamples(log[..|log| - 1]) + if e.Sent? && e.accepted then e.batch else []
  }

  predicate BatchesContinue(log: seq<Event>) {
    forall i | 0 <= i < |log| && log[i].Sent? ::
      |log[i].batch| <= MAX_BATCH && log[i].batch == Range(log[i].samples + 1, |log[i].batch|)
  }

  ghost predicate LogOk(log: seq<Event>, server: Server) {
    && NumberedNext(log) && OpensInStep(log) && BatchesContinue(log)
    && CountedOn(log, server.last) && StartedAtOne(log, server.last)
    && AcceptedSamples(log) == Range(1, server.samples)
  }

  ghost predicate LogInv(s: State) {
    && LogOk(s.log, s.server)
    && (s.link.Some? && s.log != [] && s.log[|s.log| - 1].Opened? ==> s.server.last == s.log[|s.log| - 1].ready)
  }

  // Nothing said about a log up to j changes when events are added after j.
  lemma {:induction false} EarlierKept(log: seq<Event>, e: Event, j: nat)
    requires j <= |log|
    ensures forall i | 0 <= i < j :: SameSession(log + [e], i, j) == SameSession(log, i, j)
    ensures FirstAccepted(log + [e], j) == FirstAccepted(log, j)
  {
    var longer := log + [e];
    forall i | 0 <= i < j ensures SameSession(longer, i, j) == SameSession(log, i, j) {
      assert forall k | i < k < j :: longer[k] == log[k];
    }
    if FirstAccepted(log, j) {
      var i :| 0 <= i < j && log[i].Sent? && log[i].accepted && log[i].number == 1 && SameSession(log, i, j);
      assert longer[i].Sent? && SameSession(longer, i, j);
    }
    if FirstAccepted(longer, j) {
      var i :| && 0 <= i < j && longer[i].Sent? && longer[i].accepted && longer[i].number == 1
               && SameSession(longer, i, j);
      assert log[i].Sent? && SameSession(log, i, j);
    }
  }

  lemma {:induction false} CountedOnAppend(log: seq<Event>, e: Event, last: nat, after: nat)
    requires CountedOn(log, last) && (e.Sent? ==> e.last == last)
    requires e != SessionStarted ==> last <= after && (e.Sent? && e.accepted ==> e.number <= after)
    ensures CountedOn(log + [e], after)
  {
    var longer := log + [e];
    forall i | 0 <= i < |longer| && SameSession(longer, i, |longer|) ensures AcceptedBy(longer, i, after) {
      if i < |log| {
        assert longer[|log|] == e;
        EarlierKept(log, e, |log|);
        assert AcceptedBy(log, i, last);
      }
    }
    forall i, j | 0 <= i < j < |longer| && longer[j].Sent? && SameSession(longer, i, j)
      ensures AcceptedBy(longer, i, longer[j].last)
    {
      EarlierKept(log, e, j);
      if j < |log| {
        assert AcceptedBy(log, i, log[j].last);
      } else {
        assert AcceptedBy(log, i, last);
      }
    }
  }

  lemma {:induction false} StartedAtOneAppend(log: seq<Event>, e: Event, last: nat, after: nat)
    requires StartedAtOne(log, last) && (e.Sent? ==> e.last == last)
    requires after > 0 ==>
      e != SessionStarted && (last > 0 || (e.Sent? && e.accepted && e.number == 1))
    ensures StartedAtOne(log + [e], after)
  {
    var longer := log + [e];
    forall j | 0 <= j < |longer| && longer[j].Sent? && longer[j].last > 0 ensures FirstAccepted(longer, j) {
      EarlierKept(log, e, j);
    }
    if after > 0 {
      if last > 0 {
        var i :| 0 <= i < |log| && log[i].Sent? && log[i].accepted && log[i].number == 1 && SameSession(log, i, |log|);
        assert longer[i].Sent?;
        forall k | i < k < |longer| ensures longer[k] != SessionStarted {
          if k < |log| { assert longer[k] == log[k]; }
        }
      } else {
        assert longer[|log|].Sent? && SameSession(longer, |log|, |longer|);
      }
    }
  }

  // How the log may grow by one event, and what the server counts then.
  predicate Extends(log: seq<Event>, server: Server, e: Event, after: Server) {
    match e
    case SessionStarted => after == Server(0, 0)
    case Opened(_) => after == server
    case Rejected(_, _) => after == server
    case Sent(number, last, batch, samples, accepted) =>
      && last == server.last && samples == server.samples
      && number == (if AfterMisreport(log, |log|) then 1 else SaturatingNext(last))
      && (AfterMisreport(log, |log|) ==> last > 0)
      && (log != [] && log[|log| - 1].Opened? ==> log[|log| - 1].ready == last)
      && |batch| <= MAX_BATCH && batch == Range(samples + 1, |batch|)
      && (accepted ==> number > last)
      && after == if accepted then Server(number, samples + |batch|) else server
  }

  lemma {:induction false} ShapeExtends(log: seq<Event>, server: Server, e: Event, after: Server)
    requires NumberedNext(log) && OpensInStep(log) && BatchesContinue(log) && Extends(log, server, e, after)
    ensures NumberedNext(log + [e]) && OpensInStep(log + [e]) && BatchesContinue(log + [e])
  {
    var longer := log + [e];
    forall i | 0 <= i <= |log| ensures AfterMisreport(longer, i) == AfterMisreport(log, i) {}
  }

  lemma {:induction false} SamplesExtend(log: seq<Event>, server: Server, e: Event, after: Server)
    requires AcceptedSamples(log) == Range(1, server.samples) && Extends(log, server, e, after)
    ensures AcceptedSamples(log + [e]) == Range(1, after.samples)
  {
    assert (log + [e])[..|log|] == log;
    if e.Sent? && e.accepted {
      RangeJoin(1, server.samples, |e.batch|);
    }
  }

  lemma {:induction false} LogExtends(log: seq<Event>, server: Server, e: Event, after: Server)
    requires LogOk(log, server) && Extends(log, server, e, after)
    ensures LogOk(log + [e], after)
  {
    ShapeExtends(log, server, e, after);
    SamplesExtend(log, server, e, after);
    CountedOnAppend(log, e, server.last, after.last);
    StartedAtOneAppend(log, e, server.last, after.last);
  }

  lemma {:induction false} StepKeepsLog(s: State, c: Choice, batchSize: nat)
    requires 1 <= batchSize <= MAX_BATCH && Inv(s, batchSize) && LogInv(s)
    ensures LogInv(Step(s, c, batchSize))
  {
    match c
    case Drop =>
    case Open(_, _, _) => OpenKeepsLog(s, c, batchSize);
    case Heartbeat(_, _, _) =>
      if s.link.Some? {
        HeartbeatKeepsLog(s, c, batchSize);
      }
    case Telemetry(_, _, _, _, _, _, _, _) =>
      if s.link.Some? {
        TelemetryKeepsLog(s, c, batchSize);
      }
  }

  lemma {:induction false} OpenKeepsLog(s: State, c: Choice, batchSize: nat)
    requires LogInv(s) && c.Open?
    ensures LogInv(Step(s, c, batchSize))
  {
    var server := if c.renewed then Server(0, 0) else s.server;
    var log := if c.renewed then s.log + [SessionStarted] else s.log;
    if c.renewed {
      LogExtends(s.log, s.server, SessionStarted, server);
    }
    if c.connects {
      LogExtends(log, server, Opened(server.last), server);
    }
  }

  lemma {:induction false} HeartbeatExtends(s: State, l: Link, batchSize: nat, accepted: bool, after: Server)
    requires LinkInv(s, l, batchSize)
    requires s.log[|s.log| - 1].Opened? ==> s.server.last == s.log[|s.log| - 1].ready
    requires accepted ==> SaturatingNext(l.sequence) > s.server.last
    requires after == if accepted then s.server.(last := SaturatingNext(l.sequence)) else s.server
    ensures Extends(
      s.log, s.server, Sent(SaturatingNext(l.sequence), s.server.last, [], s.server.samples, accepted), after)
  {
  }

  lemma {:induction false} HeartbeatKeepsLog(s: State, c: Choice, batchSize: nat)
    requires Inv(s, batchSize) && LogInv(s) && c.Heartbeat? && s.link.Some?
    ensures LogInv(Step(s, c, batchSize))
  {
    var n := SaturatingNext(s.link.value.sequence);
    var accepted := c.arrives && n > s.server.last;
    var after := if accepted then s.server.(last := n) else s.server;
    HeartbeatExtends(s, s.link.value, batchSize, accepted, after);
    LogExtends(s.log, s.server, Sent(n, s.server.last, [], s.server.samples, accepted), after);
  }

  // A telemetry step submits what it collected, or leaves log and server alone.
  lemma {:induction false} TelemetrySubmitsOrWaits(s: State, l: Link, batchSize: nat, c: Choice)
    requires c.Telemetry?
    ensures var t := StepTelemetry(s, l, batchSize, c);
            || (t.log == s.log && t.server == s.server)
            || (&& c.collected.Some? && 1 <= |Collected(l, c.force, c.collected.value)| <= MAX_BATCH
                && t == Submit(s, l, Collected(l, c.force, c.collected.value), c))
  {
  }

  lemma {:induction false} CollectedFollows(s: State, l: Link, batchSize: nat, force: bool, count: nat)
    requires LinkInv(s, l, batchSize)
    ensures var batch := Collected(l, force, count);
            batch == Range(s.server.samples + 1, |batch|)
  {
    RangeJoin(l.telemetry + 1, if force then 0 else |l.buffer|, count);
  }

  lemma {:induction false} TelemetryKeepsLog(s: State, c: Choice, batchSize: nat)
    requires 1 <= batchSize <= MAX_BATCH && Inv(s, batchSize) && LogInv(s)
    requires c.Telemetry? && s.link.Some?
    ensures LogInv(Step(s, c, batchSize))
  {
    var l := s.link.value;
    TelemetrySubmitsOrWaits(s, l, batchSize, c);
    var t := StepTelemetry(s, l, batchSize, c);
    if t.log != s.log || t.server != s.server {
      CollectedFollows(s, l, batchSize, c.force, c.collected.value);
      SubmitKeepsLog(s, l, Collected(l, c.force, c.collected.value), c);
    }
  }

  function Submission(s: State, l: Link, batch: seq<nat>, c: Choice): Event
    requires c.Telemetry? && batch != []
  {
    var n := SaturatingNext(l.sequence);
    Sent(n, s.server.last, batch, s.server.samples,
         c.arrives && c.valid && n > s.server.last && batch[0] == s.server.samples + 1)
  }

  lemma {:induction false} SubmissionExtends(s: State, l: Link, batch: seq<nat>, c: Choice)
    requires c.Telemetry? && 1 <= |batch| <= MAX_BATCH
    requires s.log != [] && batch == Range(s.server.samples + 1, |batch|)
    requires l.sequence == if Misreported(s.log[|s.log| - 1]) then 0 else s.server.last
    requires Misreported(s.log[|s.log| - 1]) ==> s.server.last > 0
    requires s.log[|s.log| - 1].Opened? ==> s.server.last == s.log[|s.log| - 1].ready
    ensures Extends(s.log, s.server, Submission(s, l, batch, c), Submit(s, l, batch, c).server)
  {
  }

  lemma {:induction false} SubmitKeepsLog(s: State, l: Link, batch: seq<nat>, c: Choice)
    requires LogInv(s) && c.Telemetry? && s.link == Some(l) && 1 <= |batch| <= MAX_BATCH
    requires s.log != [] && batch == Range(s.server.samples + 1, |batch|)
    requires l.sequence == if Misreported(s.log[|s.log| - 1]) then 0 else s.server.last
    requires Misreported(s.log[|s.log| - 1]) ==> s.server.last > 0
    ensures LogInv(Submit(s, l, batch, c))
  {
    var e, t := Submission(s, l, batch, c), Submit(s, l, batch, c);
    SubmissionExtends(s, l, batch, c);
    LogExtends(s.log, s.server, e, t.server);
    if t.log != s.log + [e] {
      LogExtends(s.log + [e], t.server, t.log[|t.log| - 1], t.server);
    }
  }

  // ---------- The theorems, over every run ----------

  lemma {:induction false} RunKeepsLog(script: seq<Choice>, batchSize: nat)
    requires 1 <= batchSize <= MAX_BATCH
    ensures LogInv(Run(script, batchSize))
  {
    if script != [] {
      var before := Run(script[..|script| - 1], batchSize);
      RunKeepsInv(script[..|script| - 1], batchSize);
      RunKeepsLog(script[..|script| - 1], batchSize);
      StepKeepsLog(before, script[|script| - 1], batchSize);
    }
  }

  // An accepted number is sent again in a session exactly when the agent was just told, in a
  // rejection the server could not look up, to start over.
  lemma {:induction false} ResentExactlyAfterMisreport(script: seq<Choice>, batchSize: nat, j: nat)
    requires 1 <= batchSize <= MAX_BATCH
    requires var log := Run(script, batchSize).log; j < |log| && log[j].Sent? && log[j].last < U64_MAX
    ensures var log := Run(script, batchSize).log;
      && (AfterMisreport(log, j) <==> exists i | 0 <= i < j ::
            log[i].Sent? && log[i].accepted && SameSession(log, i, j) && log[i].number == log[j].number)
      && (AfterMisreport(log, j) <==> log[j].number != log[j].last + 1)
  {
    RunKeepsLog(script, batchSize);
    var log := Run(script, batchSize).log;
    if AfterMisreport(log, j) {
      assert FirstAccepted(log, j);
      var i :| 0 <= i < j && log[i].Sent? && log[i].accepted && log[i].number == 1 && SameSession(log, i, j);
      assert log[i].number == log[j].number;
    } else {
      forall i | 0 <= i < j && log[i].Sent? && log[i].accepted && SameSession(log, i, j)
        ensures log[i].number != log[j].number
      {
        assert AcceptedBy(log, i, log[j].last);
      }
    }
  }

  // The server always finds its own number when it rejects a batch.
  predicate AnswersTruly(script: seq<Choice>) {
    forall i | 0 <= i < |script| && script[i].Telemetry? :: script[i].lookup
  }

  predicate NoMisreport(log: seq<Event>) {
    forall i | 0 <= i < |log| :: !Misreported(log[i])
  }

  lemma {:induction false} StepAnswersTruly(s: State, c: Choice, batchSize: nat)
    requires NoMisreport(s.log) && (c.Telemetry? ==> c.lookup)
    ensures NoMisreport(Step(s, c, batchSize).log)
  {
  }

  lemma {:induction false} RunAnswersTruly(script: seq<Choice>, batchSize: nat)
    requires AnswersTruly(script)
    ensures NoMisreport(Run(script, batchSize).log)
  {
    if script != [] {
      RunAnswersTruly(script[..|script| - 1], batchSize);
      StepAnswersTruly(Run(script[..|script| - 1], batchSize), script[|script| - 1], batchSize);
    }
  }

  // Against such a server every message carries the next number, and none ever repeats one
  // that was accepted.
  lemma {:induction false} NothingResentToTrueServer(script: seq<Choice>, batchSize: nat, j: nat)
    requires 1 <= batchSize <= MAX_BATCH && AnswersTruly(script)
    requires var log := Run(script, batchSize).log; j < |log| && log[j].Sent? && log[j].last < U64_MAX
    ensures var log := Run(script, batchSize).log;
      && log[j].number == log[j].last + 1
      && forall i | 0 <= i < j && log[i].Sent? && log[i].accepted && SameSession(log, i, j) ::
           log[i].number != log[j].number
  {
    RunAnswersTruly(script, batchSize);
    ResentExactlyAfterMisreport(script, batchSize, j);
  }

  // The state file never runs ahead of the server, and every connection starts in step with it.
  lemma {:induction false} ConnectionsStartInStep(script: seq<Choice>, batchSize: nat, i: nat)
    requires 1 <= batchSize <= MAX_BATCH
    ensures Run(script, batchSize).persisted <= Run(script, batchSize).server.last
    ensures var log := Run(script, batchSize).log;
      0 < i < |log| && log[i - 1].Opened? && log[i].Sent? ==>
        log[i].last == log[i - 1].ready && log[i].number == SaturatingNext(log[i].last)
  {
    RunKeepsInv(script, batchSize);
    RunKeepsLog(script, batchSize);
  }

  // The batches accepted in a session are its samples 1, 2, 3, ... without gap or repeat, and
  // between steps fewer samples than a batch wait.
  lemma {:induction false} SamplesAreContinuous(script: seq<Choice>, batchSize: nat)
    requires 1 <= batchSize <= MAX_BATCH
    ensures var s := Run(script, batchSize);
      && AcceptedSamples(s.log) == Range(1, s.server.samples)
      && BatchesContinue(s.log)
      && (s.link.Some? ==> |s.link.value.buffer| < batchSize)
  {
    RunKeepsInv(script, batchSize);
    RunKeepsLog(script, batchSize);
  }

  // ---------- What every turn does, over every run ----------

  // A run and its next turn.
  lemma {:induction false} NextTurn(script: seq<Choice>, c: Choice, batchSize: nat)
    ensures Run(script + [c], batchSize) == Step(Run(script, batchSize), c, batchSize)
  {
    assert (script + [c])[..|script|] == script;
  }

  // The agent has an open connection that takes telemetry.
  predicate TakesTelemetry(s: State) {
    s.link.Some? && s.link.value.active
  }

  // How many samples a telemetry turn has together: those waiting, unless it is forced, and the new ones.
  function Together(s: State, c: Choice): nat
    requires s.link.Some? && c.Telemetry? && c.collected.Some?
  {
    (if c.force then 0 else |s.link.value.buffer|) + c.collected.value
  }

  // The collector can number one more sample.
  predicate RoomToCount(s: State, c: Choice)
    requires s.link.Some? && c.Telemetry?
  {
    s.server.samples + (if c.force then 0 else |s.link.value.buffer|) + 1 <= U64_MAX
  }

  // One message more, and this one: the next number, and the samples the server has not got yet.
  predicate AddsMessage(before: seq<Event>, after: seq<Event>, server: Server, count: nat, taken: bool) {
    && |after| > |before| && after[..|before|] == before && after[|before|].Sent?
    && after[|before|].last == server.last && after[|before|].samples == server.samples
    && |after[|before|].batch| == count
    && (forall i | 0 <= i < count :: after[|before|].batch[i] == server.samples + 1 + i)
    && (after[|before|].accepted <==> taken && after[|before|].number > server.last)
  }

  // Enough samples, or any number when forced, are sent at once, those waiting first.
  lemma {:induction false} FullBatchIsSent(script: seq<Choice>, c: Choice, batchSize: nat)
    requires 1 <= batchSize <= MAX_BATCH && c.Telemetry? && c.collected.Some? && c.signed
    requires var s := Run(script, batchSize);
      TakesTelemetry(s) && RoomToCount(s, c) && 1 <= Together(s, c) <= 64 && (c.force || Together(s, c) >= batchSize)
    ensures var s, t := Run(script, batchSize), Run(script + [c], batchSize);
      && AddsMessage(s.log, t.log, s.server, Together(s, c), c.arrives && c.valid)
      && t.log[|s.log|].number == (if s.server.last < U64_MAX then s.server.last + 1 else s.server.last)
      && (!c.force ==> s.link.value.buffer <= t.log[|s.log|].batch)
  {
    NextTurn(script, c, batchSize);
    RunKeepsInv(script, batchSize);
    var s := Run(script, batchSize);
    CollectedFollows(s, s.link.value, batchSize, c.force, c.collected.value);
  }

  // Fewer wait, after those that waited before, and nothing is sent.
  lemma {:induction false} SmallBatchWaits(script: seq<Choice>, c: Choice, batchSize: nat)
    requires 1 <= batchSize <= MAX_BATCH && c.Telemetry? && c.collected.Some? && !c.force
    requires var s := Run(script, batchSize);
      TakesTelemetry(s) && RoomToCount(s, c) && Together(s, c) < batchSize
    ensures var s, t := Run(script, batchSize), Run(script + [c], batchSize);
      && t.log == s.log && t.server == s.server && t.link.Some? && t.link.value.active
      && s.link.value.buffer <= t.link.value.buffer && |t.link.value.buffer| == Together(s, c)
      && forall i | 0 <= i < |t.link.value.buffer| :: t.link.value.buffer[i] == s.server.samples + 1 + i
  {
    NextTurn(script, c, batchSize);
    RunKeepsInv(script, batchSize);
    var s := Run(script, batchSize);
    CollectedFollows(s, s.link.value, batchSize, false, c.collected.value);
  }

  // A telemetry turn that cannot send says nothing: without telemetry or a collection the connection
  // stays; with samples that cannot be numbered, too many, none to force or a batch that cannot be
  // signed it is given up.
  lemma {:induction false} NothingElseIsSent(script: seq<Choice>, c: Choice, batchSize: nat)
    requires 1 <= batchSize <= MAX_BATCH && c.Telemetry? && Run(script, batchSize).link.Some?
    ensures var s, t := Run(script, batchSize), Run(script + [c], batchSize);
      && (!TakesTelemetry(s) ==> t == s)
      && (TakesTelemetry(s) && !RoomToCount(s, c) ==> t == s.(link := None))
      && (TakesTelemetry(s) && RoomToCount(s, c) && c.collected.None? ==>
            t.log == s.log && t.link.Some? && t.link.value.buffer == if c.force then [] else s.link.value.buffer)
      && (TakesTelemetry(s) && RoomToCount(s, c) && c.collected.Some? ==>
            && (Together(s, c) > 64 ==> t == s.(link := None))
            && (c.force && Together(s, c) == 0 ==> t == s.(link := None))
            && ((c.force || Together(s, c) >= batchSize) && !c.signed ==> t == s.(link := None)))
  {
    NextTurn(script, c, batchSize);
    RunKeepsInv(script, batchSize);
    var s := Run(script, batchSize);
    if c.collected.Some? {
      CollectedFollows(s, s.link.value, batchSize, c.force, c.collected.value);
    }
  }

  // A heartbeat on an open connection is always sent, with the next number unless a rejection just
  // said to start over; it takes no samples, and one that is not accepted ends the connection.
  lemma {:induction false} HeartbeatIsSent(script: seq<Choice>, c: Choice, batchSize: nat)
    requires 1 <= batchSize <= MAX_BATCH && c.Heartbeat? && Run(script, batchSize).link.Some?
    ensures var s, t := Run(script, batchSize), Run(script + [c], batchSize);
      && AddsMessage(s.log, t.log, s.server, 0, c.arrives) && |t.log| == |s.log| + 1
      && t.log[|s.log|].number
         == (if AfterMisreport(s.log, |s.log|) then 1
             else if s.server.last < U64_MAX then s.server.last + 1 else U64_MAX)
      && (!t.log[|s.log|].accepted ==> t == s.(link := None, log := t.log))
  {
    NextTurn(script, c, batchSize);
    RunKeepsInv(script, batchSize);
  }

  // What the server accepts it counts, and nothing else changes its counts within a session.
  lemma {:induction false} ServerCounts(script: seq<Choice>, c: Choice, batchSize: nat)
    requires 1 <= batchSize <= MAX_BATCH && !c.Open?
    ensures var s, t := Run(script, batchSize), Run(script + [c], batchSize);
      if |t.log| > |s.log| && t.log[|s.log|].accepted
      then t.server == Server(t.log[|s.log|].number, s.server.samples + |t.log[|s.log|].batch|)
      else t.server == s.server
  {
    NextTurn(script, c, batchSize);
    RunKeepsInv(script, batchSize);
    var s := Run(script, batchSize);
    if c.Telemetry? && s.link.Some? {
      TelemetrySubmitsOrWaits(s, s.link.value, batchSize, c);
      if c.collected.Some? {
        CollectedFollows(s, s.link.value, batchSize, c.force, c.collected.value);
      }
    }
  }

  // A message that was accepted and acknowledged is saved, number and samples, and only then does the
  // connection go on from it; one whose answer is lost or cannot be saved ends the connection.
  lemma {:induction false} AcknowledgedIsSaved(script: seq<Choice>, c: Choice, batchSize: nat)
    requires 1 <= batchSize <= MAX_BATCH && (c.Heartbeat? || c.Telemetry?)
    requires var s, t := Run(script, batchSize), Run(script + [c], batchSize);
      |t.log| > |s.log| && t.log[|s.log|].accepted
    ensures var s, t := Run(script, batchSize), Run(script + [c], batchSize);
      var needed := if c.Heartbeat? then 1 else 2;
      && |t.log| == |s.log| + 1
      && (t.link.Some? <==> c.answered && c.writes >= needed)
      && (t.link.Some? ==>
            && t.persisted == t.link.value.sequence == t.server.last == t.log[|s.log|].number
            && t.link.value.telemetry == t.server.samples && t.link.value.active == s.link.value.active
            && (c.Telemetry? ==> t.persistedSamples == t.server.samples && t.link.value.buffer == [])
            && (c.Heartbeat? ==> t.persistedSamples == s.persistedSamples
                                 && t.link.value.buffer == s.link.value.buffer))
      && (!c.answered || c.writes == 0 ==> t.persisted == s.persisted && t.persistedSamples == s.persistedSamples)
  {
    NextTurn(script, c, batchSize);
    RunKeepsInv(script, batchSize);
    var s := Run(script, batchSize);
    if c.Telemetry? {
      TelemetrySubmitsOrWaits(s, s.link.value, batchSize, c);
      CollectedFollows(s, s.link.value, batchSize, c.force, c.collected.value);
    }
  }

  // A batch that arrives and is rejected: the answer's number is taken and saved, the samples are thrown
  // away, and the connection takes no more telemetry.  A message that does not arrive, or whose answer
  // does not, ends the connection.
  lemma {:induction false} RejectedTurnsTelemetryOff(script: seq<Choice>, c: Choice, batchSize: nat)
    requires 1 <= batchSize <= MAX_BATCH && c.Telemetry?
    requires var s, t := Run(script, batchSize), Run(script + [c], batchSize);
      |t.log| > |s.log| && !t.log[|s.log|].accepted
    ensures var s, t := Run(script, batchSize), Run(script + [c], batchSize);
      && t.server == s.server && (t.link.Some? <==> c.arrives && c.answered && c.writes >= 1)
      && (c.arrives && c.answered <==> |t.log| == |s.log| + 2)
      && (|t.log| == |s.log| + 2 ==>
            t.log[|s.log| + 1] == Rejected(if c.lookup then s.server.last else 0, s.server.last))
      && (t.link.Some? ==>
            && t.link.value.buffer == [] && !t.link.value.active && t.link.value.telemetry == s.server.samples
            && t.persisted == t.link.value.sequence == if c.lookup then s.server.last else 0)
  {
    NextTurn(script, c, batchSize);
    RunKeepsInv(script, batchSize);
    var s := Run(script, batchSize);
    TelemetrySubmitsOrWaits(s, s.link.value, batchSize, c);
    CollectedFollows(s, s.link.value, batchSize, c.force, c.collected.value);
  }

  // Opening: a renewed session counts from zero, the server's counts are saved, and a connection starts
  // from them with nothing waiting.
  lemma {:induction false} OpeningTakesTheServersCounts(script: seq<Choice>, c: Choice, batchSize: nat)
    requires 1 <= batchSize <= MAX_BATCH && c.Open?
    ensures var s, t := Run(script, batchSize), Run(script + [c], batchSize);
      && t.server == (if c.renewed then Server(0, 0) else s.server)
      && t.persisted == t.server.last && t.persistedSamples == t.server.samples
      && (c.connects <==> t.link.Some?)
      && (c.connects ==> t.link == Some(Link(t.server.last, t.server.samples, [], c.telemetry)))
      && t.log
         == s.log + (if c.renewed then [SessionStarted] else []) + (if c.connects then [Opened(t.server.last)] else [])
  {
    NextTurn(script, c, batchSize);
  }

  // Nothing is sent without a connection, and a connection that drops leaves all else as it was.
  lemma {:induction false} ClosedIsSilent(script: seq<Choice>, c: Choice, batchSize: nat)
    requires !c.Open? && (c == Drop || Run(script, batchSize).link.None?)
    ensures Run(script + [c], batchSize) == Run(script, batchSize).(link := None)
  {
    NextTurn(script, c, batchSize);
  }

  // Such a repeat does happen: one lookup failure is enough.
  lemma {:induction false} MisreportHappens()
    ensures var log := Run([Open(false, true, true), Heartbeat(true, true, 1),
                            Telemetry(true, Some(1), true, true, false, false, true, 1),
                            Heartbeat(true, true, 1)], 1).log;
      |log| == 5 && AfterMisreport(log, 4) && log[1].Sent? && log[1].accepted && log[4].Sent?
      && log[4].number == log[1].number
  {
    var a := Open(false, true, true);
    var b := Heartbeat(true, true, 1);
    var c := Telemetry(true, Some(1), true, true, false, false, true, 1);
    assert [a, b, c, b][..3] == [a, b, c] && [a, b, c][..2] == [a, b] && [a, b][..1] == [a] && [a][..0] == [];
    var s1 := Step(START, a, 1);
    assert Run([a], 1) == s1;
    var s2 := Step(s1, b, 1);
    assert Run([a, b], 1) == s2;
    var s3 := Step(s2, c, 1);
    assert Run([a, b, c], 1) == s3;
    assert Run([a, b, c, b], 1) == Step(s3, b, 1);
  }

  // ---------- The agent's side, as it runs ----------

  class ControlChannel {
    const batchSize: nat
    var server: Server             // the control plane
    var persisted: nat             // the state file
    var persistedSamples: nat
    var open: bool                 // the connection and its variables
    var sequence: nat
    var telemetrySequence: nat
    var samples: seq<nat>
    var telemetryActive: bool
    var log: seq<Event>

    ghost function View(): State
      reads this
    {
      State(server, persisted, persistedSamples,
            if open then Some(Link(sequence, telemetrySequence, samples, telemetryActive)) else None, log)
    }

    constructor (batchSize: nat)
      ensures this.batchSize == batchSize && View() == START
    {
      this.batchSize := batchSize;
      server, persisted, persistedSamples, open, log := Server(0, 0), 0, 0, false, [];
      sequence, telemetrySequence, samples, telemetryActive := 0, 0, [], false;
    }

    method Connect(renewed: bool, connects: bool, telemetry: bool)
      modifies this
      ensures View() == Step(old(View()), Open(renewed, connects, telemetry), batchSize)
    {
      open := false;
      if renewed {
        server, log := Server(0, 0), log + [SessionStarted];
      }
      persisted, persistedSamples := server.last, server.samples;
      if connects {
        log := log + [Opened(server.last)];
        sequence := Max(server.last, persisted);
        telemetrySequence, samples, telemetryActive, open := persistedSamples, [], telemetry, true;
      }
    }

    method SendHeartbeat(arrives: bool, answered: bool, writes: nat)
      modifies this
      ensures View() == Step(old(View()), Heartbeat(arrives, answered, writes), batchSize)
    {
      if !open {
        return;
      }
      sequence := SaturatingNext(sequence);
      var accepted := arrives && sequence > server.last;
      log := log + [Sent(sequence, server.last, [], server.samples, accepted)];
      if accepted {
        server := server.(last := sequence);
      }
      if accepted && answered && writes >= 1 {
        persisted := sequence;
      } else {
        open := false;
      }
    }

    // collect_and_submit_telemetry.
    method SubmitTelemetry(c: Choice)
      requires c.Telemetry?
      modifies this
      ensures View() == Step(old(View()), c, batchSize)
    {
      if !open || !telemetryActive {
        return;
      }
      if c.force {
        samples := [];
      }
      if telemetrySequence + |samples| + 1 > U64_MAX {
        open := false;
        return;
      } else if c.collected.None? {
        return;
      }
      samples := samples + Range(telemetrySequence + |samples| + 1, c.collected.value);
      if |samples| > MAX_BATCH {
        open := false;
        return;
      } else if !c.force && |samples| < batchSize {
        return;
      } else if samples == [] || !c.signed {
        open := false;
        return;
      }
      SubmitBatch(c);
    }

    method SubmitBatch(c: Choice)
      requires c.Telemetry? && open && samples != []
      modifies this
      ensures
        var link := Link(old(sequence), old(telemetrySequence), old(samples), old(telemetryActive));
        View() == Submit(old(View()).(link := Some(link)), link, old(samples), c)
    {
      sequence := SaturatingNext(sequence);
      var end := samples[|samples| - 1];
      var accepted := c.arrives && c.valid && sequence > server.last && samples[0] == server.samples + 1;
      log := log + [Sent(sequence, server.last, samples, server.samples, accepted)];
      if accepted {
        server := Server(sequence, end);
      }
      if !c.arrives || !c.answered {
        open := false;
      } else if accepted {
        if c.writes >= 1 {
          persisted := sequence;
        }
        if c.writes >= 2 {
          persistedSamples, telemetrySequence, samples := end, end, [];
        } else {
          open := false;
        }
      } else {
        sequence := if c.lookup then server.last else 0;
        log := log + [Rejected(sequence, server.last)];
        if c.writes >= 1 {
          persisted, samples, telemetryActive := sequence, [], false;
        } else {
          open := false;
        }
      }
    }

    method Perform(c: Choice)
      modifies this
      ensures View() == Step(old(View()), c, batchSize)
    {
      match c {
        case Open(renewed, connects, telemetry) => Connect(renewed, connects, telemetry);
        case Heartbeat(arrives, answered, writes) => SendHeartbeat(arrives, answered, writes);
        case Telemetry(_, _, _, _, _, _, _, _) => SubmitTelemetry(c);
        case Drop => open := false;
      }
    }
  }

  // The agent against any environment: its log is one the theorems above speak of.
  method RunChannel(script: seq<Choice>, batchSize: nat) returns (log: seq<Event>)
    ensures log == Run(script, batchSize).log
  {
    var channel := new ControlChannel(batchSize);
    for i := 0 to |script|
      invariant fresh(channel) && channel.batchSize == batchSize
      invariant channel.View() == Run(script[..i], batchSize)
    {
      assert script[..i + 1][..i] == script[..i];
      channel.Perform(script[i]);
    }
    assert script[..|script|] == script;
    log := channel.log;
  }
}
