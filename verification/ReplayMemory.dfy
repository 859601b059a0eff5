/**
 The worker's poll loop and its memory of assignments already run: a bounded first-in
 first-out list of keys, which keeps a redelivered assignment from running again soon.
 */
module ReplayMemory {
  import opened Outcome

  predicate Distinct(s: seq<string>) {
    forall i, j | 0 <= i < j < |s| :: s[i] != s[j]
  }

  function Keys(s: seq<string>): set<string> {
    set k | k in s
  }

  function LastOf(s: seq<string>, n: nat): seq<string> {
    if |s| <= n then s else s[|s| - n..]
  }

  lemma {:induction false} OldestOut(s: seq<string>)
    requires s != [] && Distinct(s)
    ensures Distinct(s[1..]) && Keys(s[1..]) == Keys(s) - {s[0]}
  {
    assert s == [s[0]] + s[1..];
  }

  lemma {:induction false} OneGivesWay(order: seq<string>, key: string, capacity: nat)
    requires |order| <= capacity && capacity >= 1
    ensures LastOf(order + [key], capacity) == (if |order| < capacity then order else order[1..]) + [key]
  {
  }

  class CompletedAssignments {
    const capacity: nat
    var order: seq<string>
    var entries: set<string>

    ghost predicate Valid()
      reads this
    {
      && capacity >= 1 && |order| <= capacity
      && Distinct(order) && entries == Keys(order)
    }

    constructor (requested: nat)
      ensures Valid() && capacity == Max(requested, 1) && order == []
    {
      capacity := Max(requested, 1);
      order, entries := [], {};
    }

    method Contains(key: string) returns (known: bool)
      requires Valid()
      ensures known == (key in order)
    {
      known := key in entries;
    }

    // A known key changes nothing; a new one goes last, and the oldest give way.
    method Insert(key: string)
      requires Valid()
      modifies this
      ensures Valid()
      ensures order == if key in old(order) then old(order) else LastOf(old(order) + [key], capacity)
      ensures key !in old(order) ==>
        order == (if |old(order)| < capacity then old(order) else old(order)[1..]) + [key]
    {
      if key in entries {
        return;
      }
      OneGivesWay(order, key, capacity);
      entries := entries + {key};
      order := order + [key];
      ghost var whole, dropped := order, 0;
      assert whole[0..] == whole;
      while |order| > capacity
        invariant 0 <= dropped <= |whole| - Min(|whole|, capacity)
        invariant order == whole[dropped..] && Distinct(order) && entries == Keys(order)
      {
        OldestOut(order);
        entries := entries - {order[0]};
        order := order[1..];
        dropped := dropped + 1;
      }
    }
  }

  // What a poll brought: nothing to run, or a validated assignment and how its run ends.
  datatype RunEnd = GoesOn | StopsOnShutdown | StopsOnError
  datatype Poll = NothingToRun | Assigned(jobId: string, leaseId: string, end: RunEnd)

  function Key(jobId: string, leaseId: string): string {
    jobId + ":" + leaseId
  }

  lemma {:induction false} FirstColon(job: string, lease: string)
    requires ':' !in job
    ensures |job| < |Key(job, lease)| && Key(job, lease)[|job|] == ':'
    ensures forall i | 0 <= i < |job| :: Key(job, lease)[i] != ':'
  {
    forall i | 0 <= i < |job| ensures Key(job, lease)[i] != ':' {
      assert Key(job, lease)[i] == job[i];
    }
  }

  // Two leases have different keys, as have two jobs, where job identifiers hold no colon.
  lemma {:induction false} KeysDiffer(jobA: string, leaseA: string, jobB: string, leaseB: string)
    requires ':' !in jobA && ':' !in jobB && Key(jobA, leaseA) == Key(jobB, leaseB)
    ensures jobA == jobB && leaseA == leaseB
  {
    var key := Key(jobA, leaseA);
    FirstColon(jobA, leaseA);
    FirstColon(jobB, leaseB);
    assert |jobA| == |jobB|;
    assert key[..|jobA|] == jobA && key[..|jobB|] == jobB;
    assert key[|jobA| + 1..] == leaseA && key[|jobB| + 1..] == leaseB;
  }

  // Without that it can happen: the colon between them is taken for part of an identifier.
  lemma {:induction false} KeysCollide()
    ensures Key("a:b", "c") == Key("a", "b:c")
  {
    assert Key("a:b", "c") == "a:b:c" == Key("a", "b:c");
  }

  ghost predicate Shared(job: string, lease: string) {
    exists otherJob, otherLease ::
      Key(otherJob, otherLease) == Key(job, lease) && (otherJob != job || otherLease != lease)
  }

  // So an assignment shares its key with another exactly if one of its identifiers holds a colon.
  lemma {:induction false} SharedExactly(job: string, lease: string)
    ensures Shared(job, lease) <==> ':' in job || ':' in lease
  {
    if ':' in job {
      var i :| 0 <= i < |job| && job[i] == ':';
      assert Key(job[..i], job[i + 1..] + ":" + lease) == Key(job, lease);
      assert job[..i] != job;
    } else if ':' in lease {
      var i :| 0 <= i < |lease| && lease[i] == ':';
      assert Key(job + ":" + lease[..i], lease[i + 1..]) == Key(job, lease);
      assert |job + ":" + lease[..i]| > |job|;
    } else {
      forall otherJob, otherLease | Key(otherJob, otherLease) == Key(job, lease)
        ensures otherJob == job && otherLease == lease
      {
        OnlyColon(job, lease, otherJob, otherLease);
      }
    }
  }

  lemma {:induction false} OnlyColon(job: string, lease: string, otherJob: string, otherLease: string)
    requires ':' !in job && ':' !in lease && Key(otherJob, otherLease) == Key(job, lease)
    ensures otherJob == job && otherLease == lease
  {
    var key := Key(job, lease);
    assert forall i | 0 <= i < |key| && i != |job| :: key[i] != ':';
    assert key[|otherJob|] == ':';
    assert key[..|job|] == job && key[..|otherJob|] == otherJob;
    assert key[|job| + 1..] == lease && key[|otherJob| + 1..] == otherLease;
  }

  // No assignment ran that was among the `capacity` runs before it.
  predicate NoRecentRepeat(runs: seq<string>, capacity: nat) {
    forall i, j | 0 <= i < j < |runs| && j - i <= capacity :: runs[i] != runs[j]
  }

  lemma {:induction false} LastOfNext(runs: seq<string>, key: string, capacity: nat)
    ensures LastOf(LastOf(runs, capacity) + [key], capacity) == LastOf(runs + [key], capacity)
  {
  }

  lemma {:induction false} RunAdds(runs: seq<string>, key: string, capacity: nat)
    requires NoRecentRepeat(runs, capacity) && key !in LastOf(runs, capacity)
    ensures NoRecentRepeat(runs + [key], capacity)
  {
    var recent := LastOf(runs, capacity);
    forall i | 0 <= i < |runs| && |runs| - i <= capacity ensures runs[i] != key {
      assert recent[i - (|runs| - |recent|)] == runs[i];
    }
  }

  function KeyOf(p: Poll): string
    requires p.Assigned?
  {
    Key(p.jobId, p.leaseId)
  }

  // A poll brings something to run: an assignment that is not among the last runs.
  predicate IsNew(runs: seq<string>, poll: Poll, capacity: nat) {
    poll.Assigned? && KeyOf(poll) !in LastOf(runs, capacity)
  }

  // What the first polls make the worker run.
  function Runs(polls: seq<Poll>, n: nat, capacity: nat): seq<string>
    requires n <= |polls|
  {
    if n == 0 then []
    else
      var before := Runs(polls, n - 1, capacity);
      if IsNew(before, polls[n - 1], capacity) then before + [KeyOf(polls[n - 1])] else before
  }

  // A poll whose run stops the worker.
  predicate StopsAt(polls: seq<Poll>, i: nat, capacity: nat)
    requires i < |polls|
  {
    IsNew(Runs(polls, i, capacity), polls[i], capacity) && polls[i].end != GoesOn
  }

  lemma {:induction false} RunsAreFresh(polls: seq<Poll>, n: nat, capacity: nat)
    requires n <= |polls|
    ensures NoRecentRepeat(Runs(polls, n, capacity), capacity)
  {
    if n > 0 {
      RunsAreFresh(polls, n - 1, capacity);
      if IsNew(Runs(polls, n - 1, capacity), polls[n - 1], capacity) {
        RunAdds(Runs(polls, n - 1, capacity), KeyOf(polls[n - 1]), capacity);
      }
    }
  }

  // Poll by poll: an assignment runs next, exactly unless it is one of the last `capacity` runs, and
  // nothing else runs; and it stops the worker exactly if it runs and its run says so.
  lemma {:induction false} NextRun(polls: seq<Poll>, n: nat, capacity: nat)
    requires n < |polls|
    ensures var before, after, poll := Runs(polls, n, capacity), Runs(polls, n + 1, capacity), polls[n];
      var recent := exists i | 0 <= i < |before| && |before| - capacity <= i ::
        poll.Assigned? && before[i] == poll.jobId + ":" + poll.leaseId;
      && after == (if poll.Assigned? && !recent then before + [poll.jobId + ":" + poll.leaseId] else before)
      && (StopsAt(polls, n, capacity) <==> poll.Assigned? && !recent && poll.end != GoesOn)
  {
    var before := Runs(polls, n, capacity);
    var recent := LastOf(before, capacity);
    forall i | 0 <= i < |before| && |before| - capacity <= i ensures before[i] in recent {
      assert recent[i - (|before| - |recent|)] == before[i];
    }
    forall k | 0 <= k < |recent| ensures recent[k] == before[|before| - |recent| + k] {}
  }

  // Everything that ran was assigned, and everything assigned ran, then or before.
  lemma {:induction false} RunsAreAssignments(polls: seq<Poll>, n: nat, capacity: nat)
    requires n <= |polls|
    ensures forall k | k in Runs(polls, n, capacity) ::
              exists j | 0 <= j < n :: polls[j].Assigned? && KeyOf(polls[j]) == k
    ensures forall j | 0 <= j < n && polls[j].Assigned? :: KeyOf(polls[j]) in Runs(polls, n, capacity)
  {
    if n > 0 {
      RunsAreAssignments(polls, n - 1, capacity);
    }
  }

  // The poll loop: it runs exactly what the polls up to the first that stops it make it run.
  method RunWorker(polls: seq<Poll>, memory: nat) returns (runs: seq<string>, polled: nat)
    ensures polled <= |polls| && runs == Runs(polls, polled, Max(memory, 1))
    ensures forall i | 0 <= i < polled - 1 :: !StopsAt(polls, i, Max(memory, 1))
    ensures polled < |polls| ==> polled > 0 && StopsAt(polls, polled - 1, Max(memory, 1))
    ensures NoRecentRepeat(runs, Max(memory, 1))
  {
    var completed := new CompletedAssignments(memory);
    runs, polled := [], 0;
    var stopped := false;
    while polled < |polls| && !stopped
      invariant 0 <= polled <= |polls| && fresh(completed) && completed.Valid()
      invariant completed.capacity == Max(memory, 1)
      invariant !stopped ==> completed.order == LastOf(runs, completed.capacity)
      invariant runs == Runs(polls, polled, completed.capacity)
      invariant forall i | 0 <= i < polled - 1 :: !StopsAt(polls, i, completed.capacity)
      invariant stopped <==> polled > 0 && StopsAt(polls, polled - 1, completed.capacity)
    {
      runs, stopped := RunPoll(completed, polls[polled], runs);
      polled := polled + 1;
    }
    RunsAreFresh(polls, polled, completed.capacity);
  }

  // One turn of the loop.
  method RunPoll(completed: CompletedAssignments, poll: Poll, before: seq<string>)
    returns (runs: seq<string>, stopped: bool)
    requires completed.Valid() && completed.order == LastOf(before, completed.capacity)
    modifies completed
    ensures completed.Valid() && (!stopped ==> completed.order == LastOf(runs, completed.capacity))
    ensures runs == if IsNew(before, poll, completed.capacity) then before + [KeyOf(poll)] else before
    ensures stopped <==> IsNew(before, poll, completed.capacity) && poll.end != GoesOn
  {
    runs, stopped := before, false;
    if poll.Assigned? {
      var key := Key(poll.jobId, poll.leaseId);
      var known := completed.Contains(key);
      if !known {
        runs := runs + [key];
        if poll.end == StopsOnError {
          return runs, true;
        }
        LastOfNext(before, key, completed.capacity);
        completed.Insert(key);
        stopped := poll.end == StopsOnShutdown;
      }
    }
  }

  lemma {:induction false} DistinctCount(s: seq<string>)
    requires Distinct(s)
    ensures |Keys(s)| == |s|
  {
    if s != [] {
      var rest := s[..|s| - 1];
      DistinctCount(rest);
      assert Keys(s) == Keys(rest) + {s[|s| - 1]};
    }
  }

  lemma {:induction false} RecentRunsAreDistinct(runs: seq<string>, capacity: nat, j: nat)
    requires NoRecentRepeat(runs, capacity) && capacity <= j <= |runs|
    ensures Distinct(runs[j - capacity..j])
  {
    var first, recent := j - capacity, runs[j - capacity..j];
    forall a, b | 0 <= a < b < |recent| ensures recent[a] != recent[b] {
      assert recent[a] == runs[first + a] && recent[b] == runs[first + b];
    }
  }

  // Two runs of one key have at least `capacity` different other keys between them.
  lemma {:induction false} RepeatsAreFarApart(runs: seq<string>, capacity: nat, i: nat, j: nat)
    requires NoRecentRepeat(runs, capacity)
    requires i < j < |runs| && runs[i] == runs[j]
    ensures j - i > capacity
    ensures |Keys(runs[i + 1..j]) - {runs[i]}| >= capacity
  {
    var recent := runs[j - capacity..j];
    RecentRunsAreDistinct(runs, capacity, j);
    DistinctCount(recent);
    forall k | k in recent ensures k in runs[i + 1..j] && k != runs[i] {
      var n :| 0 <= n < |recent| && recent[n] == k;
      assert k == runs[i + 1..j][j - capacity + n - (i + 1)];
    }
    SubsetCount(Keys(recent), Keys(runs[i + 1..j]) - {runs[i]});
  }

  lemma {:induction false} SubsetCount(a: set<string>, b: set<string>)
    requires a <= b
    ensures |a| <= |b|
  {
    if a != {} {
      var x :| x in a;
      SubsetCount(a - {x}, b - {x});
    }
  }
}
