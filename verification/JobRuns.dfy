// What holds of the job store after any run of its operations.
module JobRuns {
  import opened Wrappers
  import opened Jobs

  datatype Step =
    | NewSend(newID: string, send: SendInput)
    | NewReceive(newID: string, receive: ReceiveInput)
    | On(jobID: string, op: JobOp)

  function Take(s: Store, step: Step): (Store, Result<Job, JobError>) {
    match step
    case NewSend(id, i) => CreateSend(s, id, i)
    case NewReceive(id, i) => CreateReceive(s, id, i)
    case On(id, op) => Apply(s, id, op)
  }

  // The ids drawn for new jobs are non-empty and not in use; the program draws
  // eight random octets and relies on that.
  predicate FreshID(s: Store, step: Step) {
    !step.On? ==> step.newID != "" && step.newID !in s.jobs
  }

  function Run(s: Store, steps: seq<Step>): Store {
    if steps == [] then s else Take(Run(s, steps[..|steps| - 1]), steps[|steps| - 1]).0
  }

  predicate FreshIDs(s: Store, steps: seq<Step>) {
    steps != [] ==>
      FreshIDs(s, steps[..|steps| - 1]) && FreshID(Run(s, steps[..|steps| - 1]), steps[|steps| - 1])
  }

  // The transition graph of the job lifecycle.
  predicate Legal(a: JobStatus, b: JobStatus) {
    match b
    case Queued => false
    case Offered => a.Queued?
    case Accepted => a.Offered?
    case Connecting => a.Accepted? || a.Retryable?
    case Transferring => a.Connecting?
    case Interrupted => a.Connecting? || a.Transferring?
    case Retryable => a.Interrupted?
    case Completed => a.Transferring?
    case Failed => !a.IsTerminal()
    case Cancelled => !a.IsTerminal()
  }

  // An event that tells what a job is just after the step that logged it.
  predicate Tells(e: JobEvent, job: Job) {
    e.jobID == job.id && e.transferID == job.transferID && e.status == job.status
    && e.progressBytes == job.progressBytes
  }

  predicate GoodLog(job: Job, log: seq<JobEvent>, sequence: nat) {
    && log != []
    && log[0].eventType.JobCreated?
    && log[0].status == (if job.direction.Send? then Queued else Offered)
    && Tells(log[|log| - 1], job)
    && (forall k :: 0 <= k < |log| ==> log[k].jobID == job.id && job.sequence < log[k].sequence <= sequence)
    && (forall k :: 0 < k < |log| ==>
          log[k - 1].sequence < log[k].sequence
          && (log[k - 1].status == log[k].status || Legal(log[k - 1].status, log[k].status)))
  }

  predicate GoodJob(id: string, job: Job, sequence: nat) {
    id != "" && job.id == id && 0 <= job.progressBytes <= job.fileSizeBytes && job.sequence <= sequence
    && (job.direction.Receive? ==> !job.status.Queued?)
  }

  ghost predicate Distinct(jobs: map<string, Job>) {
    forall a, b :: a in jobs && b in jobs && a != b ==>
      jobs[a].sequence != jobs[b].sequence
      && (jobs[a].transferID != "" ==> jobs[a].transferID != jobs[b].transferID)
  }

  ghost predicate EachGood(s: Store) {
    forall id :: id in s.jobs ==>
      id in s.events && GoodJob(id, s.jobs[id], s.sequence) && GoodLog(s.jobs[id], s.events[id], s.sequence)
  }

  ghost predicate Valid(s: Store) {
    s.jobs.Keys == s.events.Keys && EachGood(s) && Distinct(s.jobs)
  }

  // One operation's effect on its record.
  lemma MutateEffect(jobs: map<string, Job>, job: Job, op: JobOp)
    requires Precheck(op).None? && Mutate(jobs, job, op).Ok?
    requires job.direction.Receive? ==> !job.status.Queued?
    requires 0 <= job.progressBytes <= job.fileSizeBytes
    ensures var j := Mutate(jobs, job, op).value;
      && !job.status.IsTerminal()
      && (j.status == job.status || Legal(job.status, j.status))
      && 0 <= j.progressBytes <= j.fileSizeBytes
      && j == job.(status := j.status, transferID := j.transferID, agentTicket := j.agentTicket,
                   publicToken := j.publicToken, browserURL := j.browserURL, transferKey := j.transferKey,
                   progressBytes := j.progressBytes, failureReason := j.failureReason)
      && (j.transferID != job.transferID ==> j.transferID != "" && !TransferIDTaken(jobs, j.transferID, job.id))
      && (j.direction.Receive? ==> !j.status.Queued?)
      && (forall n :: Tells(FillEvent(j, Draft(op), n), j))
  {
  }

  lemma LogGrows(job: Job, j: Job, log: seq<JobEvent>, e: JobEvent, sequence: nat)
    requires GoodLog(job, log, sequence) && Tells(e, j) && e.sequence == sequence + 1
    requires j.id == job.id && j.sequence == job.sequence && j.direction == job.direction
    requires j.status == job.status || Legal(job.status, j.status)
    ensures GoodLog(j, log + [e], sequence + 1)
  {
  }

  // Counting up leaves the other jobs' records and logs good.
  lemma LaterIsGood(id: string, job: Job, log: seq<JobEvent>, before: nat, after: nat)
    requires GoodJob(id, job, before) && GoodLog(job, log, before) && before <= after
    ensures GoodJob(id, job, after) && GoodLog(job, log, after)
  {
  }

  // Storing one record with its log keeps the store valid if that pair is
  // good and the record clashes with no other.
  lemma StoreKeepsValid(s: Store, id: string, job: Job, log: seq<JobEvent>, sequence: nat)
    requires Valid(s) && s.sequence <= sequence
    requires GoodJob(id, job, sequence) && GoodLog(job, log, sequence)
    requires forall x :: x in s.jobs && x != id ==>
      s.jobs[x].sequence != job.sequence && (job.transferID != "" ==> s.jobs[x].transferID != job.transferID)
    ensures Valid(Store(s.jobs[id := job], s.events[id := log], sequence))
  {
    hide GoodJob, GoodLog;
    var t := Store(s.jobs[id := job], s.events[id := log], sequence);
    forall x | x in t.jobs
      ensures x in t.events && GoodJob(x, t.jobs[x], t.sequence) && GoodLog(t.jobs[x], t.events[x], t.sequence)
    {
      if x != id { LaterIsGood(x, s.jobs[x], s.events[x], s.sequence, sequence); }
    }
  }

  lemma InsertKeepsValid(s: Store, job: Job)
    requires Valid(s) && job.id !in s.jobs && job.id != ""
    requires job.sequence == s.sequence + 1 && job.progressBytes == 0 <= job.fileSizeBytes
    requires job.status == (if job.direction.Send? then Queued else Offered)
    requires job.transferID != "" ==> !TransferIDTaken(s.jobs, job.transferID, "")
    ensures Valid(Insert(s, job))
  {
    hide GoodLog, FillEvent;
    var e := FillEvent(job, EventDraft(JobCreated, "", Some(job.status), 0, ""), s.sequence + 2);
    FirstLogIsGood(job, e, s.sequence + 2);
    assert LogOf(s, job.id) + [e] == [e];
    assert Insert(s, job) == Store(s.jobs[job.id := job], s.events[job.id := [e]], s.sequence + 2);
    forall x | x in s.jobs && x != job.id
      ensures s.jobs[x].sequence != job.sequence && (job.transferID != "" ==> s.jobs[x].transferID != job.transferID)
    {
      assert GoodJob(x, s.jobs[x], s.sequence);
    }
    StoreKeepsValid(s, job.id, job, [e], s.sequence + 2);
  }

  lemma FirstLogIsGood(job: Job, e: JobEvent, n: nat)
    requires e == FillEvent(job, EventDraft(JobCreated, "", Some(job.status), 0, ""), n)
    requires job.sequence < n && job.progressBytes == 0
    requires job.status == (if job.direction.Send? then Queued else Offered)
    ensures GoodLog(job, [e], n)
  {
  }

  lemma ApplyKeepsValid(s: Store, id: string, op: JobOp)
    requires Valid(s)
    ensures Valid(Apply(s, id, op).0)
  {
    hide Mutate, Draft, Precheck, FillEvent, GoodLog;
    var (t, r) := Apply(s, id, op);
    if r.Ok? {
      var j := r.value;
      MutateEffect(s.jobs, s.jobs[id], op);
      var e := FillEvent(j, Draft(op), s.sequence + 1);
      FillSequence(j, Draft(op), s.sequence + 1);
      LogGrows(s.jobs[id], j, s.events[id], e, s.sequence);
      forall x | x in s.jobs && x != id
        ensures s.jobs[x].sequence != j.sequence && (j.transferID != "" ==> s.jobs[x].transferID != j.transferID)
      {
        assert GoodJob(x, s.jobs[x], s.sequence);
      }
      StoreKeepsValid(s, id, j, s.events[id] + [e], s.sequence + 1);
    }
  }

  lemma FillSequence(job: Job, d: EventDraft, n: nat)
    ensures FillEvent(job, d, n).sequence == n
  {
  }

  lemma TakeKeepsValid(s: Store, step: Step)
    requires Valid(s) && FreshID(s, step)
    ensures Valid(Take(s, step).0)
  {
    hide Apply, Valid, Insert;
    match step
    case On(id, op) => ApplyKeepsValid(s, id, op);
    case NewSend(id, i) =>
      if CheckSend(i).None? { InsertKeepsValid(s, SendJob(id, i, s.sequence + 1)); }
    case NewReceive(id, i) =>
      if CheckReceive(s, i).None? { InsertKeepsValid(s, ReceiveJob(id, i, s.sequence + 1)); }
  }

  lemma EmptyStoreIsValid()
    ensures Valid(EMPTY_STORE)
  {
  }

  // The store invariant, over every run from any valid store, the empty one
  // first of all.
  lemma {:induction false} RunsAreValid(s: Store, steps: seq<Step>)
    requires Valid(s) && FreshIDs(s, steps)
    ensures Valid(Run(s, steps))
    decreases |steps|
  {
    hide Take, FreshID;
    if steps != [] {
      RunsAreValid(s, steps[..|steps| - 1]);
      TakeKeepsValid(Run(s, steps[..|steps| - 1]), steps[|steps| - 1]);
    }
  }

  // With it, at most one job is bound to a transfer, so a search over the map
  // in any order returns the same job.
  lemma FindIsOrderIndependent(s: Store, transferID: string, a: string, b: string)
    requires Valid(s) && transferID != ""
    requires a in s.jobs && b in s.jobs
    requires s.jobs[a].transferID == transferID && s.jobs[b].transferID == transferID
    ensures a == b && FindByTransferID(s, transferID) == Some(s.jobs[a])
  {
    var r := FindByTransferID(s, transferID);
    assert r.Some?;
    var id :| id in s.jobs && s.jobs[id] == r.value && s.jobs[id].transferID == transferID;
    assert id == a && id == b;
  }

  // A step that fails changes nothing.
  lemma FailedStepChangesNothing(s: Store, step: Step)
    ensures Take(s, step).1.Err? ==> Take(s, step).0 == s
  {
  }

  // A step that succeeds appends exactly one event to exactly one log, telling
  // what its job has become, and leaves every other record and log alone.
  lemma StepLogsItsOutcome(s: Store, step: Step)
    requires Valid(s) && FreshID(s, step) && Take(s, step).1.Ok?
    ensures var (t, r) := Take(s, step);
      var id := r.value.id;
      && id == (if step.On? then step.jobID else step.newID)
      && id in t.jobs && t.jobs[id] == r.value
      && id in t.events && |t.events[id]| == |LogOf(s, id)| + 1
      && t.events[id][..|LogOf(s, id)|] == LogOf(s, id)
      && Tells(t.events[id][|LogOf(s, id)|], r.value)
      && t.jobs - {id} == s.jobs - {id} && t.events - {id} == s.events - {id}
  {
    hide Mutate, Draft, Precheck, FillEvent, GoodLog;
    if step.On? {
      assert GoodJob(step.jobID, s.jobs[step.jobID], s.sequence);
      MutateEffect(s.jobs, s.jobs[step.jobID], step.op);
    } else {
      var job := Take(s, step).1.value;
      assert Tells(FillEvent(job, EventDraft(JobCreated, "", Some(job.status), 0, ""), s.sequence + 2), job) by {
        CreatedEventTells(job, s.sequence + 2);
      }
    }
  }

  lemma CreatedEventTells(job: Job, n: nat)
    requires job.progressBytes == 0
    ensures Tells(FillEvent(job, EventDraft(JobCreated, "", Some(job.status), 0, ""), n), job)
  {
  }

  // The records a job has gone through, one for each successful step on it.
  function History(s: Store, steps: seq<Step>, id: string): seq<Job> {
    if steps == [] then []
    else
      var before := History(s, steps[..|steps| - 1], id);
      var r := Take(Run(s, steps[..|steps| - 1]), steps[|steps| - 1]).1;
      if r.Ok? && r.value.id == id then before + [r.value] else before
  }

  predicate LogTellsHistory(log: seq<JobEvent>, history: seq<Job>) {
    |log| == |history| && forall k :: 0 <= k < |log| ==> Tells(log[k], history[k])
  }

  // The event log refines the store: over any run, the k-th event of a job
  // tells the record the k-th successful step left, and the last record is
  // the one the store holds.
  lemma {:induction false} LogRefinesStore(steps: seq<Step>, id: string)
    requires FreshIDs(EMPTY_STORE, steps)
    ensures var s := Run(EMPTY_STORE, steps);
            var h := History(EMPTY_STORE, steps, id);
      && LogTellsHistory(LogOf(s, id), h)
      && (id in s.jobs <==> h != [])
      && (id in s.jobs ==> h[|h| - 1] == s.jobs[id])
  {
    hide Take, FreshID, Valid, Tells;
    if steps != [] {
      var s := Run(EMPTY_STORE, steps[..|steps| - 1]);
      var step := steps[|steps| - 1];
      LogRefinesStore(steps[..|steps| - 1], id);
      EmptyStoreIsValid();
      RunsAreValid(EMPTY_STORE, steps[..|steps| - 1]);
      if Take(s, step).1.Err? {
        FailedStepChangesNothing(s, step);
      } else {
        var (t, r) := Take(s, step);
        StepLogsItsOutcome(s, step);
        if r.value.id != id {
          assert id in t.jobs <==> id in t.jobs - {r.value.id};
          assert id in t.events <==> id in t.events - {r.value.id};
          assert id in s.jobs ==> s.jobs[id] == (s.jobs - {r.value.id})[id];
          assert id in t.jobs ==> t.jobs[id] == (t.jobs - {r.value.id})[id];
          assert id in s.events ==> s.events[id] == (s.events - {r.value.id})[id];
          assert id in t.events ==> t.events[id] == (t.events - {r.value.id})[id];
          assert LogOf(t, id) == LogOf(s, id);
        } else {
          var log := LogOf(s, id);
          assert LogOf(t, id) == log + [t.events[id][|log|]];
        }
      }
    }
  }

  // A completed, failed or cancelled job never changes again: not its record,
  // not its log.
  lemma {:induction false} TerminalJobsAreFrozen(s: Store, steps: seq<Step>, id: string)
    requires Valid(s) && id in s.jobs && (s.jobs[id].status.Completed? || s.jobs[id].status.Failed? || s.jobs[id].status.Cancelled?)
    requires FreshIDs(s, steps)
    ensures var t := Run(s, steps); id in t.jobs && t.jobs[id] == s.jobs[id] && LogOf(t, id) == LogOf(s, id)
  {
    hide Take, FreshID, Valid;
    if steps != [] {
      TerminalJobsAreFrozen(s, steps[..|steps| - 1], id);
      RunsAreValid(s, steps[..|steps| - 1]);
      TerminalStep(Run(s, steps[..|steps| - 1]), steps[|steps| - 1], id);
    }
  }

  lemma TerminalStep(s: Store, step: Step, id: string)
    requires Valid(s) && id in s.jobs && s.jobs[id].status.IsTerminal() && FreshID(s, step)
    ensures var t := Take(s, step).0; id in t.jobs && t.jobs[id] == s.jobs[id] && LogOf(t, id) == LogOf(s, id)
  {
    hide Take, GoodLog;
    if Take(s, step).1.Err? {
      FailedStepChangesNothing(s, step);
    } else {
      var (t, r) := Take(s, step);
      StepLogsItsOutcome(s, step);
      if step.On? && step.jobID == id { TerminalRefuses(s, id, step.op); }
      assert r.value.id != id;
      assert id in t.jobs <==> id in t.jobs - {r.value.id};
      assert id in t.events <==> id in t.events - {r.value.id};
      assert s.jobs[id] == (s.jobs - {r.value.id})[id] && t.jobs[id] == (t.jobs - {r.value.id})[id];
      assert s.events[id] == (s.events - {r.value.id})[id] && t.events[id] == (t.events - {r.value.id})[id];
    }
  }

  lemma TerminalRefuses(s: Store, id: string, op: JobOp)
    requires id in s.jobs && s.jobs[id].status.IsTerminal()
    ensures Take(s, On(id, op)).1.Err?
  {
    hide Draft;
  }

  // ---- The guard and the outcome of every operation ----

  // An operation on a job that is not there changes nothing.
  lemma UnknownJobsAreRefused(s: Store, id: string, op: JobOp)
    requires id !in s.jobs
    ensures var (t, r) := Take(s, On(id, op));
      && t == s
      && r == Err(if op.AttachTransfer? && op.transferID == "" then TransferIDRequired
                  else if op.AttachTransferKey? && op.key == ZERO_KEY then TransferKeyRequired
                  else if (op.Interrupt? || op.Fail?) && op.reason == "" then FailureReasonRequired
                  else JobNotFound)
  {
  }

  // The status an operation is there to set, if any.
  function Target(op: JobOp): Option<JobStatus> {
    match op
    case MarkOffered => Some(Offered)
    case MarkAccepted => Some(Accepted)
    case MarkConnecting => Some(Connecting)
    case MarkTransferring => Some(Transferring)
    case Interrupt(_) => Some(Interrupted)
    case MarkRetryable => Some(Retryable)
    case ClaimRetryable => Some(Connecting)
    case Complete => Some(Completed)
    case Fail(_) => Some(Failed)
    case Cancel => Some(Cancelled)
    case _ => None
  }

  // A job that is already connecting, or further, need not be marked again.
  predicate Repeats(op: JobOp, st: JobStatus) { op.MarkConnecting? && (st.Connecting? || st.Transferring?) }

  // The statuses an operation is allowed in: those with an edge of the
  // lifecycle to its target, but that a claim takes a Retryable job only.
  predicate AllowedIn(op: JobOp, st: JobStatus) {
    match Target(op)
    case None => !st.IsTerminal()
    case Some(to) => (Legal(st, to) || Repeats(op, st)) && (op.ClaimRetryable? ==> st.Retryable?)
  }

  // And where it leads.
  function LeadsTo(op: JobOp, st: JobStatus): JobStatus {
    if Target(op).None? || Repeats(op, st) then st else Target(op).value
  }

  // What a successful step writes to its job's log, besides what the job has
  // become: the kind of change, and the reason where one is given.
  function ChangeOf(step: Step): JobEventType {
    if !step.On? then JobCreated
    else if step.op.UpdateProgress? then ProgressChanged
    else if step.op.AttachTransfer? || step.op.AttachPublicLink? || step.op.AttachTransferKey? then TransferBound
    else StatusChanged
  }

  lemma EventTellsTheChange(s: Store, step: Step)
    requires Valid(s) && FreshID(s, step) && Take(s, step).1.Ok?
    ensures var (t, r) := Take(s, step);
      var e := LogOf(t, r.value.id);
      && e != []
      && e[|e| - 1].eventType == ChangeOf(step)
      && e[|e| - 1].message == (if step.On? && (step.op.Interrupt? || step.op.Fail?) then step.op.reason else "")
      && e[|e| - 1].sequence == t.sequence == s.sequence + (if step.On? then 1 else 2)
  {
    hide Mutate, GoodLog, Precheck, CheckReceive, CheckSend;
    if step.On? {
      assert GoodJob(step.jobID, s.jobs[step.jobID], s.sequence);
      MutateEffect(s.jobs, s.jobs[step.jobID], step.op);
    }
  }

  // A new job is made exactly of well-formed input, and is that input; else the
  // first thing wrong with it is the error.
  lemma CreatesExactly(s: Store, step: Step)
    requires !step.On?
    ensures var r := Take(s, step).1;
      match step
      case On(_, _) => true
      case NewSend(id, i) =>
        r == if i.sourcePath == "" then Err(SourcePathRequired)
             else if i.browserLink && i.toAgentID != "" then Err(BrowserTargetConflict)
             else if !i.browserLink && i.toAgentID == "" then Err(TargetAgentRequired)
             else if i.fileName == "" then Err(FileNameRequired)
             else if i.fileSizeBytes < 0 then Err(FileSizeNegative)
             else Ok(Job(id, Send, Queued, "", "", "", "", None, i.sourcePath, "", "", i.toAgentID, i.browserLink,
                         i.fileName, i.fileSizeBytes, 0, "", s.sequence + 1))
      case NewReceive(id, i) =>
        r == if i.transferID == "" then Err(TransferIDRequired)
             else if i.fromAgentID == "" then Err(FromAgentRequired)
             else if i.fileName == "" then Err(FileNameRequired)
             else if i.fileSizeBytes < 0 then Err(FileSizeNegative)
             else if exists x :: x in s.jobs && s.jobs[x].id != "" && s.jobs[x].transferID == i.transferID then Err(DuplicateTransferID)
             else Ok(Job(id, Receive, Offered, i.transferID, "", "", "", None, "", i.destinationPath, i.fromAgentID, "", false,
                         i.fileName, i.fileSizeBytes, 0, "", s.sequence + 1))
  {
  }

  // The operation's arguments fit the job.
  predicate Fits(jobs: map<string, Job>, job: Job, op: JobOp) {
    && (op.AttachTransfer? ==> op.transferID != "" && !TransferIDTaken(jobs, op.transferID, job.id))
    && (op.AttachTransferKey? ==> op.key != ZERO_KEY)
    && (op.UpdateProgress? ==> 0 <= op.progressBytes <= job.fileSizeBytes)
    && (op.Interrupt? || op.Fail? ==> op.reason != "")
  }

  lemma MutatesExactly(jobs: map<string, Job>, job: Job, op: JobOp)
    ensures var r := Mutate(jobs, job, op);
      && (Precheck(op).None? && r.Ok? <==> AllowedIn(op, job.status) && Fits(jobs, job, op))
      && (r.Err? && Precheck(op).None? ==> (r.error == JobTerminal <==> job.status.IsTerminal()))
      && (Precheck(op).None? && r.Ok? ==> r.value.status == LeadsTo(op, job.status))
      && (r.Err? && Precheck(op).None? && !job.status.IsTerminal() ==>
            r.error == if op.AttachTransfer? then DuplicateTransferID
                       else if op.UpdateProgress? then ProgressOutOfRange
                       else InvalidJobStatus)
  {
    hide TransferIDTaken;
  }

  lemma MutatesFields(jobs: map<string, Job>, job: Job, op: JobOp)
    requires Mutate(jobs, job, op).Ok?
    ensures var j := Mutate(jobs, job, op).value;
      && j.progressBytes == (if op.UpdateProgress? then op.progressBytes
                             else if op.Complete? then job.fileSizeBytes
                             else job.progressBytes)
      && j.failureReason == (if op.Interrupt? || op.Fail? then op.reason else job.failureReason)
      && j.transferID == (if op.AttachTransfer? then op.transferID else job.transferID)
      && j.transferKey == (if op.AttachTransferKey? then Some(op.key) else job.transferKey)
      && j.id == job.id && j.direction == job.direction && j.sequence == job.sequence
      && j.fileSizeBytes == job.fileSizeBytes && j.fileName == job.fileName
      && j.destinationPath == job.destinationPath && j.sourcePath == job.sourcePath
      && j.agentTicket == (if op.AttachTransfer? then op.agentTicket else job.agentTicket)
      && j.publicToken == (if op.AttachPublicLink? then op.publicToken else job.publicToken)
      && j.browserURL == (if op.AttachPublicLink? then op.browserURL else job.browserURL)
      && j.fromAgentID == job.fromAgentID && j.toAgentID == job.toAgentID && j.browserLink == job.browserLink
  {
    hide TransferIDTaken;
  }

  // An operation succeeds exactly in its statuses, on well-formed arguments
  // that fit the job; it leads where the lifecycle says, moves progress and
  // failure reason only if that is its business, and is told that the job is
  // terminal exactly when it is. The identity of the job never changes.
  lemma OperationsExactly(s: Store, id: string, op: JobOp)
    requires id in s.jobs
    ensures var (t, r) := Take(s, On(id, op));
      var job := s.jobs[id];
      && (r.Ok? <==> AllowedIn(op, job.status) && Fits(s.jobs, job, op))
      && (r.Err? && Precheck(op).None? ==> (r.error == JobTerminal <==> job.status.IsTerminal()))
      && (r.Ok? ==>
            && id in t.jobs && t.jobs[id] == r.value && t.jobs == s.jobs[id := r.value]
            && r.value.status == LeadsTo(op, job.status)
            && r.value.progressBytes == (if op.UpdateProgress? then op.progressBytes
                                         else if op.Complete? then job.fileSizeBytes
                                         else job.progressBytes)
            && r.value.failureReason == (if op.Interrupt? || op.Fail? then op.reason else job.failureReason)
            && r.value.transferID == (if op.AttachTransfer? then op.transferID else job.transferID)
            && r.value.transferKey == (if op.AttachTransferKey? then Some(op.key) else job.transferKey)
            && r.value.id == job.id && r.value.direction == job.direction && r.value.sequence == job.sequence
            && r.value.fileSizeBytes == job.fileSizeBytes && r.value.fileName == job.fileName
            && r.value.destinationPath == job.destinationPath && r.value.sourcePath == job.sourcePath
            && r.value.agentTicket == (if op.AttachTransfer? then op.agentTicket else job.agentTicket)
            && r.value.publicToken == (if op.AttachPublicLink? then op.publicToken else job.publicToken)
            && r.value.browserURL == (if op.AttachPublicLink? then op.browserURL else job.browserURL)
            && r.value.fromAgentID == job.fromAgentID && r.value.toAgentID == job.toAgentID && r.value.browserLink == job.browserLink)
      && (r.Err? ==>
            r.error == if op.AttachTransfer? && op.transferID == "" then TransferIDRequired
                       else if op.AttachTransferKey? && op.key == ZERO_KEY then TransferKeyRequired
                       else if (op.Interrupt? || op.Fail?) && op.reason == "" then FailureReasonRequired
                       else if job.status.IsTerminal() then JobTerminal
                       else if op.AttachTransfer? then DuplicateTransferID
                       else if op.UpdateProgress? then ProgressOutOfRange
                       else InvalidJobStatus)
  {
    hide FillEvent, Draft, Mutate, AllowedIn, LeadsTo, Fits;
    MutatesExactly(s.jobs, s.jobs[id], op);
    if Mutate(s.jobs, s.jobs[id], op).Ok? { MutatesFields(s.jobs, s.jobs[id], op); }
  }
}
