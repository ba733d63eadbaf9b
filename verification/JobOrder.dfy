// Orders the job store promises: creation order of List, log order of Events,
// and the alternation of claims and retries.
module JobOrder {
  import opened Wrappers
  import opened Jobs
  import opened JobRuns

  // The sequence number each job was given.
  function Numbers(jobs: map<string, Job>): map<string, nat> {
    map id | id in jobs :: jobs[id].sequence
  }

  // ids lists every numbered id once, by increasing number.
  ghost predicate InSequence(number: map<string, nat>, ids: seq<string>) {
    && (forall id :: id in number <==> id in ids)
    && (forall i, j :: 0 <= i < j < |ids| ==> number[ids[i]] < number[ids[j]])
  }

  lemma NextIsLeast(number: map<string, nat>, a: seq<string>, b: seq<string>, k: nat)
    requires InSequence(number, a) && InSequence(number, b) && k < |a| && k < |b|
    requires forall i :: 0 <= i < k ==> a[i] == b[i]
    ensures a[k] in number && b[k] in number
    ensures a[k] == b[k] || number[a[k]] < number[b[k]]
  {
    assert b[k] in number && a[k] in number;
    assert b[k] in a;
    var m :| 0 <= m < |a| && a[m] == b[k];
  }

  lemma {:induction false} SequenceOrderAgrees(number: map<string, nat>, a: seq<string>, b: seq<string>, k: nat)
    requires InSequence(number, a) && InSequence(number, b) && k <= |a| && k <= |b|
    ensures forall i :: 0 <= i < k ==> a[i] == b[i]
  {
    if k > 0 {
      SequenceOrderAgrees(number, a, b, k - 1);
      NextIsLeast(number, a, b, k - 1);
      NextIsLeast(number, b, a, k - 1);
    }
  }

  lemma NoLonger(number: map<string, nat>, a: seq<string>, b: seq<string>)
    requires InSequence(number, a) && InSequence(number, b)
    ensures |a| <= |b|
  {
    assert |b| < |a| ==> a[|b|] in number && a[|b|] in b;
    if |b| < |a| {
      SequenceOrderAgrees(number, a, b, |b|);
    }
  }

  lemma SequenceOrderIsUnique(number: map<string, nat>, a: seq<string>, b: seq<string>)
    requires InSequence(number, a) && InSequence(number, b)
    ensures a == b
  {
    NoLonger(number, a, b);
    NoLonger(number, b, a);
    SequenceOrderAgrees(number, a, b, |a|);
  }

  // The ids of the jobs a run created, in order of creation.
  function Created(s: Store, steps: seq<Step>): seq<string> {
    if steps == [] then []
    else
      var step := steps[|steps| - 1];
      var r := Take(Run(s, steps[..|steps| - 1]), step).1;
      Created(s, steps[..|steps| - 1]) + (if !step.On? && r.Ok? then [step.newID] else [])
  }

  // Sorting the jobs by sequence number, from whatever order the map yields,
  // gives creation order.
  lemma ListIsCreationOrder(steps: seq<Step>, ids: seq<string>)
    requires FreshIDs(EMPTY_STORE, steps)
    requires InSequence(Numbers(Run(EMPTY_STORE, steps).jobs), ids)
    ensures ids == Created(EMPTY_STORE, steps)
  {
    CreatedInSequence(steps);
    SequenceOrderIsUnique(Numbers(Run(EMPTY_STORE, steps).jobs), ids, Created(EMPTY_STORE, steps));
  }

  lemma {:induction false} CreatedInSequence(steps: seq<Step>)
    requires FreshIDs(EMPTY_STORE, steps)
    ensures InSequence(Numbers(Run(EMPTY_STORE, steps).jobs), Created(EMPTY_STORE, steps))
  {
    hide Take, Valid, FreshID;
    if steps != [] {
      var steps' := steps[..|steps| - 1];
      var s := Run(EMPTY_STORE, steps');
      CreatedInSequence(steps');
      EmptyStoreIsValid();
      RunsAreValid(EMPTY_STORE, steps');
      StepKeepsSequence(s, steps[|steps| - 1], Created(EMPTY_STORE, steps'));
    }
  }

  lemma JobsAfter(s: Store, step: Step)
    ensures var (t, r) := Take(s, step);
      t.jobs == (if r.Err? then s.jobs else s.jobs[(if step.On? then step.jobID else step.newID) := r.value])
    ensures Take(s, step).1.Ok? && !step.On? ==> Take(s, step).1.value.sequence == s.sequence + 1
    ensures Take(s, step).1.Ok? && step.On? ==> step.jobID in s.jobs && Mutate(s.jobs, s.jobs[step.jobID], step.op) == Take(s, step).1
  {
    hide FillEvent, Draft, Mutate;
  }

  lemma NumbersAfter(s: Store, step: Step)
    requires Valid(s) && FreshID(s, step)
    ensures var (t, r) := Take(s, step);
      Numbers(t.jobs) == if !step.On? && r.Ok? then Numbers(s.jobs)[step.newID := s.sequence + 1] else Numbers(s.jobs)
  {
    hide Take, Mutate, Valid;
    JobsAfter(s, step);
    if step.On? && step.jobID in s.jobs {
      MutateKeepsSequence(s.jobs, s.jobs[step.jobID], step.op);
    }
  }

  lemma NumbersAreBounded(s: Store)
    requires Valid(s)
    ensures forall id :: id in Numbers(s.jobs) ==> Numbers(s.jobs)[id] <= s.sequence
  {
    hide GoodLog;
  }

  lemma AppendNext(number: map<string, nat>, ids: seq<string>, id: string, n: nat)
    requires InSequence(number, ids) && id !in number
    requires forall x :: x in number ==> number[x] < n
    ensures InSequence(number[id := n], ids + [id])
  {
    assert forall i :: 0 <= i < |ids| ==> ids[i] in number;
  }

  lemma StepKeepsSequence(s: Store, step: Step, ids: seq<string>)
    requires Valid(s) && FreshID(s, step) && InSequence(Numbers(s.jobs), ids)
    ensures var (t, r) := Take(s, step);
            InSequence(Numbers(t.jobs), ids + (if !step.On? && r.Ok? then [step.newID] else []))
  {
    hide Take, Valid, Numbers;
    NumbersAfter(s, step);
    NumbersAreBounded(s);
    assert ids + [] == ids;
    if !step.On? && Take(s, step).1.Ok? {
      assert step.newID !in Numbers(s.jobs) by { NumberedIDs(s.jobs, step.newID); }
      AppendNext(Numbers(s.jobs), ids, step.newID, s.sequence + 1);
    }
  }

  lemma NumberedIDs(jobs: map<string, Job>, id: string)
    ensures id in Numbers(jobs) <==> id in jobs
  {
  }

  lemma MutateKeepsSequence(jobs: map<string, Job>, job: Job, op: JobOp)
    ensures Mutate(jobs, job, op).Ok? ==> Mutate(jobs, job, op).value.sequence == job.sequence
  {
  }

  predicate SortedEvents(log: seq<JobEvent>) {
    forall i, j :: 0 <= i < j < |log| ==> log[i].sequence <= log[j].sequence
  }

  predicate StrictEvents(log: seq<JobEvent>) {
    forall k :: 0 < k < |log| ==> log[k - 1].sequence < log[k].sequence
  }

  lemma {:induction false} StrictMeansIncreasing(log: seq<JobEvent>, i: nat, j: nat)
    requires StrictEvents(log) && i < j < |log|
    ensures log[i].sequence < log[j].sequence
  {
    if i + 1 < j { StrictMeansIncreasing(log, i, j - 1); }
  }

  lemma DropLast<T>(l: seq<T>)
    requires l != []
    ensures multiset(l[..|l| - 1]) == multiset(l) - multiset{l[|l| - 1]}
  {
    assert l == l[..|l| - 1] + [l[|l| - 1]];
  }

  ghost predicate StrictBy<T>(key: T -> int, l: seq<T>) {
    forall i, j :: 0 <= i < j < |l| ==> key(l[i]) < key(l[j])
  }

  ghost predicate SortedBy<T>(key: T -> int, l: seq<T>) {
    forall i, j :: 0 <= i < j < |l| ==> key(l[i]) <= key(l[j])
  }

  lemma OrderedPrefixes<T>(key: T -> int, l: seq<T>)
    requires l != []
    ensures StrictBy(key, l) ==> StrictBy(key, l[..|l| - 1])
    ensures SortedBy(key, l) ==> SortedBy(key, l[..|l| - 1])
  {
  }

  lemma SameLast<T>(key: T -> int, log: seq<T>, copy: seq<T>)
    requires log != [] && |copy| == |log| && StrictBy(key, log) && SortedBy(key, copy)
    requires copy[|copy| - 1] in log && log[|log| - 1] in copy
    ensures copy[|copy| - 1] == log[|log| - 1]
  {
    var n := |log| - 1;
    var i :| 0 <= i <= n && log[i] == copy[n];
    var j :| 0 <= j <= n && copy[j] == log[n];
  }

  // Sorting what is already strictly increasing gives it back.
  lemma {:induction false} SortedCopyIsTheOriginal<T>(key: T -> int, log: seq<T>, copy: seq<T>)
    requires StrictBy(key, log) && SortedBy(key, copy) && multiset(copy) == multiset(log)
    ensures copy == log
    decreases |log|
  {
    hide StrictBy, SortedBy;
    assert |multiset(copy)| == |copy| && |multiset(log)| == |log|;
    if log != [] {
      var n := |log| - 1;
      assert copy[n] in multiset(copy) && log[n] in multiset(log);
      SameLast(key, log, copy);
      DropLast(log);
      DropLast(copy);
      OrderedPrefixes(key, log);
      OrderedPrefixes(key, copy);
      SortedCopyIsTheOriginal(key, log[..n], copy[..n]);
      assert log == log[..n] + [log[n]] && copy == copy[..n] + [copy[n]];
    }
  }

  // So Events returns the log of a job just as it was written.
  lemma EventsReturnTheLog(s: Store, steps: seq<Step>, id: string, copy: seq<JobEvent>)
    requires Valid(s) && FreshIDs(s, steps) && id in Run(s, steps).jobs
    requires SortedEvents(copy) && multiset(copy) == multiset(LogOf(Run(s, steps), id))
    ensures copy == LogOf(Run(s, steps), id)
  {
    hide Run, FreshIDs;
    RunsAreValid(s, steps);
    var t := Run(s, steps);
    assert GoodLog(t.jobs[id], t.events[id], t.sequence);
    var log := t.events[id];
    forall i, j | 0 <= i < j < |log| ensures log[i].sequence < log[j].sequence {
      StrictMeansIncreasing(log, i, j);
    }
    SortedCopyIsTheOriginal((e: JobEvent) => e.sequence, log, copy);
  }

  // Step k of the run was this operation on this job, and it succeeded.
  predicate Succeeded(s: Store, steps: seq<Step>, k: nat, id: string, op: JobOp)
    requires k < |steps|
  {
    steps[k] == On(id, op) && Take(Run(s, steps[..k]), steps[k]).1.Ok?
  }

  lemma OnlyMarkRetryableRetries(jobs: map<string, Job>, job: Job, op: JobOp)
    requires Mutate(jobs, job, op).Ok? && Mutate(jobs, job, op).value.status.Retryable?
    ensures job.status.Retryable? || op == MarkRetryable
  {
  }

  lemma RetryableComesFromMarkRetryable(s: Store, step: Step, id: string)
    requires Valid(s) && FreshID(s, step) && id in s.jobs
    ensures var (t, r) := Take(s, step);
      && id in t.jobs
      && (t.jobs[id].status.Retryable? ==> s.jobs[id].status.Retryable? || (step == On(id, MarkRetryable) && r.Ok?))
  {
    hide FillEvent, Draft, GoodLog, Mutate, GoodJob;
    var (t, r) := Take(s, step);
    if r.Ok? {
      StepLogsItsOutcome(s, step);
      if r.value.id == id {
        if t.jobs[id].status.Retryable? {
          OnlyMarkRetryableRetries(s.jobs, s.jobs[id], step.op);
        }
      } else {
        assert id in s.jobs - {r.value.id} && (s.jobs - {r.value.id})[id] == s.jobs[id];
        assert (t.jobs - {r.value.id})[id] == t.jobs[id];
      }
    }
  }

  lemma {:induction false} NotRetryableUntilMarked(s: Store, steps: seq<Step>, id: string, i: nat, j: nat)
    requires Valid(s) && FreshIDs(s, steps) && i <= j <= |steps|
    requires id in Run(s, steps[..i]).jobs && !Run(s, steps[..i]).jobs[id].status.Retryable?
    requires forall k :: i <= k < j ==> !Succeeded(s, steps, k, id, MarkRetryable)
    ensures id in Run(s, steps[..j]).jobs && !Run(s, steps[..j]).jobs[id].status.Retryable?
    decreases j - i
  {
    hide Take, Valid, FreshID;
    if i < j {
      NotRetryableUntilMarked(s, steps, id, i, j - 1);
      FreshPrefix(s, steps, j);
      var head := steps[..j];
      assert head[..j - 1] == steps[..j - 1];
      RunsAreValid(s, steps[..j - 1]);
      RetryableComesFromMarkRetryable(Run(s, steps[..j - 1]), steps[j - 1], id);
      assert !Succeeded(s, steps, j - 1, id, MarkRetryable);
    }
  }

  lemma {:induction false} FreshPrefix(s: Store, steps: seq<Step>, j: nat)
    requires FreshIDs(s, steps) && j <= |steps|
    ensures FreshIDs(s, steps[..j])
    decreases |steps|
  {
    if j == |steps| {
      assert steps[..j] == steps;
    } else {
      FreshPrefix(s, steps[..|steps| - 1], j);
      assert steps[..|steps| - 1][..j] == steps[..j];
    }
  }

  lemma ClaimLeavesConnecting(s: Store, id: string)
    requires Take(s, On(id, ClaimRetryable)).1.Ok?
    ensures var t := Take(s, On(id, ClaimRetryable)).0;
      && id in s.jobs && s.jobs[id].status.Retryable?
      && id in t.jobs && t.jobs[id].status.Connecting?
  {
    hide FillEvent, Draft;
  }

  // Of two successful claims on one job, the second is preceded by a
  // successful MarkRetryable that came after the first: a retry is claimed once.
  lemma {:induction false} ClaimsAlternateWithRetries(s: Store, steps: seq<Step>, id: string, i: nat, j: nat)
    requires Valid(s) && FreshIDs(s, steps) && i < j < |steps|
    requires Succeeded(s, steps, i, id, ClaimRetryable) && Succeeded(s, steps, j, id, ClaimRetryable)
    ensures exists k :: i < k < j && Succeeded(s, steps, k, id, MarkRetryable)
  {
    hide Take, Valid, FreshIDs;
    if forall k :: i < k < j ==> !Succeeded(s, steps, k, id, MarkRetryable) {
      assert steps[..i + 1][..i] == steps[..i];
      ClaimLeavesConnecting(Run(s, steps[..i]), id);
      NotRetryableUntilMarked(s, steps, id, i + 1, j);
      ClaimLeavesConnecting(Run(s, steps[..j]), id);
      assert false;
    }
  }

  function Place(l: seq<Job>, job: Job): seq<Job> {
    if l == [] || job.sequence < l[0].sequence then [job] + l else [l[0]] + Place(l[1..], job)
  }

  predicate Ascending(l: seq<Job>) {
    forall i, j :: 0 <= i < j < |l| ==> l[i].sequence < l[j].sequence
  }

  lemma {:induction false} PlaceKeepsOrder(l: seq<Job>, job: Job)
    requires Ascending(l) && forall k :: 0 <= k < |l| ==> l[k].sequence != job.sequence
    ensures Ascending(Place(l, job))
    ensures forall x :: x in Place(l, job) <==> x in l || x == job
  {
    if l != [] && job.sequence > l[0].sequence {
      PlaceKeepsOrder(l[1..], job);
      var p := Place(l[1..], job);
      assert l == [l[0]] + l[1..];
      forall i, j | 0 <= i < j < |p| + 1 ensures ([l[0]] + p)[i].sequence < ([l[0]] + p)[j].sequence {
        if i == 0 { assert p[j - 1] in l[1..] || p[j - 1] == job; }
      }
    }
  }

  ghost predicate Contains(jobs: map<string, Job>, ids: set<string>, l: seq<Job>) {
    && (forall id :: id in ids ==> id in jobs && jobs[id] in l)
    && (forall k :: 0 <= k < |l| ==> l[k].id in ids && l[k].id in jobs && jobs[l[k].id] == l[k])
  }

  lemma PlacedContains(jobs: map<string, Job>, ids: set<string>, l: seq<Job>, id: string)
    requires Contains(jobs, ids, l) && Ascending(l) && id in jobs && id !in ids && jobs[id].id == id
    requires Distinct(jobs)
    ensures Ascending(Place(l, jobs[id])) && Contains(jobs, ids + {id}, Place(l, jobs[id]))
  {
    forall k | 0 <= k < |l| ensures l[k].sequence != jobs[id].sequence {
      assert l[k].id != id;
    }
    PlaceKeepsOrder(l, jobs[id]);
    var p := Place(l, jobs[id]);
    forall k | 0 <= k < |p| ensures p[k].id in ids + {id} && p[k].id in jobs && jobs[p[k].id] == p[k] {
      assert p[k] in p;
    }
  }

  function IDs(l: seq<Job>): seq<string> { seq(|l|, k requires 0 <= k < |l| => l[k].id) }

  lemma ContainsAll(jobs: map<string, Job>, l: seq<Job>)
    requires Contains(jobs, jobs.Keys, l) && Ascending(l)
    requires forall id :: id in jobs ==> jobs[id].id == id
    ensures InSequence(Numbers(jobs), IDs(l))
  {
    var ids := IDs(l);
    forall id ensures id in Numbers(jobs) <==> id in ids {
      if id in jobs {
        assert jobs[id] in l;
        var k :| 0 <= k < |l| && l[k] == jobs[id];
        assert ids[k] == id;
      }
    }
  }

  // List: the records of the map, in sequence order. Placing each record as
  // it is met stands for the library sort that follows the program's loop.
  method List(m: JobManager) returns (l: seq<Job>)
    requires Valid(m.State())
    ensures Contains(m.jobs, m.jobs.Keys, l)
    ensures InSequence(Numbers(m.jobs), IDs(l))
  {
    hide GoodLog, InSequence, Ascending, Place, Contains;
    l := [];
    var left := m.jobs.Keys;
    assert forall id :: id in m.jobs ==> GoodJob(id, m.jobs[id], m.sequence);
    NothingListed(m.jobs);
    assert m.jobs.Keys - left == {};
    while left != {}
      invariant left <= m.jobs.Keys
      invariant Ascending(l) && Contains(m.jobs, m.jobs.Keys - left, l)
      decreases |left|
    {
      var id :| id in left;
      PlacedContains(m.jobs, m.jobs.Keys - left, l, id);
      assert m.jobs.Keys - left + {id} == m.jobs.Keys - (left - {id});
      l := Place(l, m.jobs[id]);
      left := left - {id};
    }
    assert m.jobs.Keys - left == m.jobs.Keys;
    ContainsAll(m.jobs, l);
  }

  lemma NothingListed(jobs: map<string, Job>)
    ensures Ascending([]) && Contains(jobs, {}, [])
  {
  }
}
