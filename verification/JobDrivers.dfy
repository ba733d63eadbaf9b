// The multi-step drivers of the daemon (internal/agentd/transfer_runtime.go,
// internal/agentd/backend_client.go): each reads a job, then performs store
// operations one by one, with the lock released in between.
module JobDrivers {
  import opened Wrappers
  import opened Jobs
  import opened JobRuns

  // What a driver decides from the record it read: give up, or perform these
  // operations in order until one is refused.
  datatype Plan = Refuse(error: JobError) | Perform(ops: seq<JobOp>)

  function StartPlan(status: JobStatus): Plan {
    match status
    case Offered => Perform([MarkAccepted, MarkConnecting, MarkTransferring])
    case Accepted => Perform([MarkConnecting, MarkTransferring])
    case Retryable => Perform([MarkConnecting, MarkTransferring])
    case Connecting => Perform([MarkTransferring])
    case Transferring => Perform([])
    case Completed => Perform([])
    case _ => Refuse(InvalidJobStatus)
  }

  function RetryPlan(status: JobStatus, reason: string): Plan {
    match status
    case Retryable => Perform([])
    case Offered => Perform([MarkAccepted, MarkConnecting, Interrupt(reason), MarkRetryable])
    case Accepted => Perform([MarkConnecting, Interrupt(reason), MarkRetryable])
    case Interrupted => Perform([MarkRetryable])
    case Connecting => Perform([Interrupt(reason), MarkRetryable])
    case Transferring => Perform([Interrupt(reason), MarkRetryable])
    case _ => Perform([Fail(reason)])
  }

  function RunOps(s: Store, id: string, ops: seq<JobOp>): (Store, Option<JobError>)
    decreases |ops|
  {
    if ops == [] then (s, None)
    else
      var (t, r) := Apply(s, id, ops[0]);
      if r.Err? then (t, Some(r.error)) else RunOps(t, id, ops[1..])
  }

  function Follow(s: Store, id: string, p: Plan): (Store, Option<JobError>) {
    match p
    case Refuse(e) => (s, Some(e))
    case Perform(ops) => RunOps(s, id, ops)
  }

  // markJobRetryableIfMutable, undisturbed.
  function RetryOutcome(s: Store, id: string, reason: string): (Store, Option<JobError>) {
    if reason == "" then (s, None)
    else if id !in s.jobs then (s, Some(JobNotFound))
    else
      var (t, e) := Follow(s, id, RetryPlan(s.jobs[id].status, reason));
      // the plan [Fail] stands for failJobIfMutable, which forgives a terminal job
      (t, if e == Some(JobTerminal) && RetryPlan(s.jobs[id].status, reason) == Perform([Fail(reason)]) then None else e)
  }

  // markTransferStarted on the job found, undisturbed.
  function StartOutcome(s: Store, id: string): (Store, Option<JobError>)
    requires id in s.jobs
  {
    Follow(s, id, StartPlan(s.jobs[id].status))
  }

  // completeTransferJob on the job found, undisturbed.
  function CompleteOutcome(s: Store, id: string): (Store, Option<JobError>)
    requires id in s.jobs
  {
    if s.jobs[id].status.Completed? then (s, None)
    else
      var (t, e) := if s.jobs[id].status.Transferring? then (s, None) else StartOutcome(s, id);
      if e.Some? then (t, e)
      else if id !in t.jobs then (t, Some(JobNotFound))
      else if !t.jobs[id].status.Transferring? then (t, if t.jobs[id].status.Completed? then None else Some(InvalidJobStatus))
      else if t.jobs[id].direction.Send? && t.jobs[id].progressBytes != t.jobs[id].fileSizeBytes then (t, Some(ProgressOutOfRange))
      else RunOps(t, id, [Complete])
  }

  // t is s with the record of one job (and its log) moved on, its identity,
  // binding and direction kept.
  predicate OnlyJobMoved(s: Store, t: Store, id: string) {
    && id in s.jobs && id in t.jobs
    && t.jobs - {id} == s.jobs - {id}
    && t.jobs[id].id == s.jobs[id].id && t.jobs[id].transferID == s.jobs[id].transferID
    && t.jobs[id].direction == s.jobs[id].direction && t.jobs[id].fileSizeBytes == s.jobs[id].fileSizeBytes
    && t.jobs[id].destinationPath == s.jobs[id].destinationPath
  }

  // An operation that drivers perform on their way takes an edge of the
  // lifecycle.
  predicate Allowed(from: JobStatus, op: JobOp, to: JobStatus) {
    && (op.MarkAccepted? || op.MarkConnecting? || op.MarkTransferring? || op.Interrupt? || op.MarkRetryable? || op.Fail?)
    && Precheck(op).None? && Target(op) == Some(to) && Legal(from, to)
  }

  lemma AllowedOpSucceeds(s: Store, id: string, op: JobOp, to: JobStatus)
    requires id in s.jobs && Allowed(s.jobs[id].status, op, to)
    ensures var (t, r) := Apply(s, id, op);
      r.Ok? && OnlyJobMoved(s, t, id) && t.jobs[id] == Told(s.jobs[id], op, to)
  {
    hide FillEvent, Draft;
  }

  // The record after such an operation: its status, and its failure reason where
  // one is given.
  function Told(job: Job, op: JobOp, to: JobStatus): Job {
    job.(status := to, failureReason := if op.Interrupt? || op.Fail? then op.reason else job.failureReason)
  }

  function LastReason(ops: seq<JobOp>, before: string): string {
    if ops == [] then before else LastReason(ops[1..], if ops[0].Interrupt? || ops[0].Fail? then ops[0].reason else before)
  }

  // The reason in the end, of operations that give the same one or none.
  lemma {:induction false} ReasonGiven(ops: seq<JobOp>, before: string, reason: string)
    requires forall op :: op in ops && (op.Interrupt? || op.Fail?) ==> op.reason == reason
    ensures LastReason(ops, before) == if exists op :: op in ops && (op.Interrupt? || op.Fail?) then reason else before
    decreases |ops|
  {
    if ops != [] {
      assert ops == [ops[0]] + ops[1..];
      ReasonGiven(ops[1..], if ops[0].Interrupt? || ops[0].Fail? then ops[0].reason else before, reason);
    }
  }

  // A plan that walks an allowed path is performed to its end.
  lemma {:induction false} AllowedPathIsWalked(s: Store, id: string, ops: seq<JobOp>, path: seq<JobStatus>)
    requires id in s.jobs && |path| == |ops| + 1 && path[0] == s.jobs[id].status
    requires forall k :: 0 <= k < |ops| ==> Allowed(path[k], ops[k], path[k + 1])
    ensures var (t, e) := RunOps(s, id, ops);
      e == None && OnlyJobMoved(s, t, id)
      && t.jobs[id] == s.jobs[id].(status := path[|ops|], failureReason := LastReason(ops, s.jobs[id].failureReason))
    decreases |ops|
  {
    hide Apply, Allowed;
    if ops != [] {
      AllowedOpSucceeds(s, id, ops[0], path[1]);
      var t := Apply(s, id, ops[0]).0;
      AllowedPathIsWalked(t, id, ops[1..], path[1..]);
      assert RunOps(t, id, ops[1..]).0.jobs - {id} == t.jobs - {id} == s.jobs - {id};
    }
  }

  function StartPath(status: JobStatus): seq<JobStatus> {
    match status
    case Offered => [Offered, Accepted, Connecting, Transferring]
    case Accepted => [Accepted, Connecting, Transferring]
    case Retryable => [Retryable, Connecting, Transferring]
    case Connecting => [Connecting, Transferring]
    case _ => [status]
  }

  function RetryPath(status: JobStatus): seq<JobStatus> {
    match status
    case Offered => [Offered, Accepted, Connecting, Interrupted, Retryable]
    case Accepted => [Accepted, Connecting, Interrupted, Retryable]
    case Interrupted => [Interrupted, Retryable]
    case Connecting => [Connecting, Interrupted, Retryable]
    case Transferring => [Transferring, Interrupted, Retryable]
    case Queued => [Queued, Failed]
    case _ => [status]
  }

  // Run alone, markTransferStarted brings every startable job to Transferring,
  // leaves a finished one alone, and refuses the others untouched.
  lemma StartReachesTransferring(s: Store, id: string)
    requires id in s.jobs
    ensures var (t, e) := StartOutcome(s, id);
      var st := s.jobs[id].status;
      if st.Queued? || st.Interrupted? || st.Failed? || st.Cancelled? then t == s && e == Some(InvalidJobStatus)
      else
        && e == None && OnlyJobMoved(s, t, id)
        && t.jobs[id] == s.jobs[id].(status := if st.Completed? then Completed else Transferring)
  {
    hide RunOps;
    var st := s.jobs[id].status;
    if StartPlan(st).Perform? {
      AllowedPathIsWalked(s, id, StartPlan(st).ops, StartPath(st));
      ReasonGiven(StartPlan(st).ops, s.jobs[id].failureReason, "");
    }
  }

  lemma RetryPathIsAllowed(st: JobStatus, reason: string)
    requires !st.IsTerminal() && reason != ""
    ensures RetryPlan(st, reason).Perform?
    ensures var ops, path := RetryPlan(st, reason).ops, RetryPath(st);
      && |path| == |ops| + 1 && path[0] == st && path[|ops|] == (if st.Queued? then Failed else Retryable)
      && forall k :: 0 <= k < |ops| ==> Allowed(path[k], ops[k], path[k + 1])
  {
  }

  lemma FailIsRefusedOnTerminal(s: Store, id: string, reason: string)
    requires id in s.jobs && s.jobs[id].status.IsTerminal() && reason != ""
    ensures RunOps(s, id, [Fail(reason)]) == (s, Some(JobTerminal))
  {
  }

  // Run alone, markJobRetryableIfMutable brings every live job to Retryable
  // with its progress kept, fails one that was never offered, and forgives a
  // terminal one.
  lemma RetryReachesRetryable(s: Store, id: string, reason: string)
    requires id in s.jobs && reason != ""
    ensures var (t, e) := RetryOutcome(s, id, reason);
      var st := s.jobs[id].status;
      if st.IsTerminal() then t == s && e == None
      else
        && e == None && OnlyJobMoved(s, t, id)
        && t.jobs[id] == s.jobs[id].(status := if st.Queued? then Failed else Retryable,
                                     failureReason := if st.Retryable? || st.Interrupted? then s.jobs[id].failureReason else reason)
  {
    hide RunOps, RetryPlan, RetryPath, Allowed;
    var st := s.jobs[id].status;
    if st.IsTerminal() {
      TerminalPlan(st, reason);
      FailIsRefusedOnTerminal(s, id, reason);
    } else {
      RetryPathIsAllowed(st, reason);
      RetryReason(st, reason, s.jobs[id].failureReason);
      AllowedPathIsWalked(s, id, RetryPlan(st, reason).ops, RetryPath(st));
    }
  }

  lemma RetryReason(st: JobStatus, reason: string, before: string)
    requires RetryPlan(st, reason).Perform?
    ensures LastReason(RetryPlan(st, reason).ops, before) == if st.Retryable? || st.Interrupted? then before else reason
  {
    var ops := RetryPlan(st, reason).ops;
    ReasonGiven(ops, before, reason);
    if !st.Retryable? && !st.Interrupted? {
      assert (if ops[0] == Fail(reason) then Fail(reason) else Interrupt(reason)) in ops;
    }
  }

  lemma TerminalPlan(st: JobStatus, reason: string)
    requires st.IsTerminal()
    ensures RetryPlan(st, reason) == Perform([Fail(reason)])
  {
  }

  // Without a reason there is nothing to do, and without a job only an error.
  lemma RetryNeedsReasonAndJob(s: Store, id: string, reason: string)
    ensures reason == "" ==> RetryOutcome(s, id, reason) == (s, None)
    ensures reason != "" && id !in s.jobs ==> RetryOutcome(s, id, reason) == (s, Some(JobNotFound))
  {
  }

  lemma CompleteStep(s: Store, id: string)
    requires id in s.jobs && s.jobs[id].status.Transferring?
    ensures var (t, e) := RunOps(s, id, [Complete]);
      e == None && OnlyJobMoved(s, t, id)
      && t.jobs[id] == s.jobs[id].(status := Completed, progressBytes := s.jobs[id].fileSizeBytes)
  {
    hide FillEvent, Draft;
    var t := Apply(s, id, Complete).0;
    assert RunOps(t, id, []) == (t, None);
  }

  // Run alone, completeTransferJob succeeds exactly on a completed job and on
  // a startable one that, if it sends, has reported its whole size; success
  // means Completed at full progress. A send job short of its size is refused
  // and only moved to Transferring.
  lemma CompleteReachesCompleted(s: Store, id: string)
    requires id in s.jobs
    ensures var (t, e) := CompleteOutcome(s, id);
      var job := s.jobs[id];
      var startable := StartPlan(job.status).Perform?;
      var short := job.direction.Send? && job.progressBytes != job.fileSizeBytes;
      && (e == None <==> job.status.Completed? || (startable && !short))
      && (e == None ==> OnlyJobMoved(s, t, id) && t.jobs[id].status == Completed)
      && (e == None && job.status.Completed? ==> t == s)
      && (e == None && !job.status.Completed? ==> t.jobs[id] == job.(status := Completed, progressBytes := job.fileSizeBytes))
      && (!startable ==> t == s)
      && (startable && !job.status.Completed? && short ==>
            e == Some(ProgressOutOfRange) && OnlyJobMoved(s, t, id) && t.jobs[id] == job.(status := Transferring))
      && (!startable ==> e == Some(InvalidJobStatus))
  {
    hide RunOps, StartOutcome;
    var job := s.jobs[id];
    if !job.status.Completed? {
      StartReachesTransferring(s, id);
      var (t, e) := if job.status.Transferring? then (s, None) else StartOutcome(s, id);
      if e.None? {
        CompleteStep(t, id);
        var u := RunOps(t, id, [Complete]).0;
        assert u.jobs - {id} == t.jobs - {id} == s.jobs - {id};
      }
    }
  }

  lemma {:induction false} RunOpsKeepValid(s: Store, id: string, ops: seq<JobOp>)
    requires Valid(s)
    ensures Valid(RunOps(s, id, ops).0)
    decreases |ops|
  {
    hide Apply, Valid;
    if ops != [] {
      ApplyKeepsValid(s, id, ops[0]);
      if Apply(s, id, ops[0]).1.Ok? { RunOpsKeepValid(Apply(s, id, ops[0]).0, id, ops[1..]); }
    }
  }

  // ---- The drivers as methods over the shared store, run alone ----

  // A chain of "if _, err := ...; err != nil { return err }" calls.
  method PerformOps(m: JobManager, id: string, ops: seq<JobOp>) returns (e: Option<JobError>)
    modifies m
    ensures (m.State(), e) == RunOps(old(m.State()), id, ops)
  {
    var i := 0;
    while i < |ops|
      invariant 0 <= i <= |ops|
      invariant RunOps(old(m.State()), id, ops) == RunOps(m.State(), id, ops[i..])
    {
      assert ops[i..][0] == ops[i] && ops[i..][1..] == ops[i + 1..];
      var r := m.Do(id, ops[i]);
      if r.Err? { return Some(r.error); }
      i := i + 1;
    }
    return None;
  }

  method FailJobIfMutable(m: JobManager, id: string, reason: string) returns (e: Option<JobError>)
    modifies m
    ensures reason == "" ==> m.State() == old(m.State()) && e == None
    ensures reason != "" ==>
      var (t, f) := RunOps(old(m.State()), id, [Fail(reason)]);
      m.State() == t && e == if f == Some(JobTerminal) then None else f
  {
    if reason == "" { return None; }
    e := PerformOps(m, id, [Fail(reason)]);
    if e == Some(JobTerminal) { e := None; }
  }

  method MarkJobRetryableIfMutable(m: JobManager, id: string, reason: string) returns (e: Option<JobError>)
    modifies m
    ensures (m.State(), e) == RetryOutcome(old(m.State()), id, reason)
  {
    hide RunOps;
    if reason == "" { return None; }
    if id !in m.jobs { return Some(JobNotFound); }
    match m.jobs[id].status {
      case Retryable =>
        NothingToDo(m.State(), id);
        return None;
      case Offered =>
        e := PerformOps(m, id, [MarkAccepted, MarkConnecting, Interrupt(reason), MarkRetryable]);
      case Accepted =>
        e := PerformOps(m, id, [MarkConnecting, Interrupt(reason), MarkRetryable]);
      case Interrupted =>
        e := PerformOps(m, id, [MarkRetryable]);
      case Connecting =>
        e := PerformOps(m, id, [Interrupt(reason), MarkRetryable]);
      case Transferring =>
        e := PerformOps(m, id, [Interrupt(reason), MarkRetryable]);
      case _ =>
        e := FailJobIfMutable(m, id, reason);
    }
  }

  lemma NothingToDo(s: Store, id: string)
    ensures RunOps(s, id, []) == (s, None)
  {
  }

  // FindByTransferID on a valid store.
  method FindJob(m: JobManager, transferID: string) returns (r: Option<Job>)
    requires Valid(m.State())
    ensures r == FindByTransferID(m.State(), transferID)
    ensures r.Some? ==> r.value.id in m.jobs && m.jobs[r.value.id] == r.value
  {
    hide GoodLog;
    r := m.Find(transferID);
    if r.Some? {
      var id :| id in m.jobs && m.jobs[id] == r.value && r.value.transferID == transferID;
      assert GoodJob(id, m.jobs[id], m.sequence);
      FindIsOrderIndependent(m.State(), transferID, id, id);
    }
  }

  method MarkTransferStarted(m: JobManager, transferID: string) returns (e: Option<JobError>)
    requires Valid(m.State())
    modifies m
    ensures Valid(m.State())
    ensures var j := FindByTransferID(old(m.State()), transferID);
      if j.None? then m.State() == old(m.State()) && e == Some(if transferID == "" then TransferIDRequired else JobNotFound)
      else j.value.id in old(m.jobs) && (m.State(), e) == StartOutcome(old(m.State()), j.value.id)
  {
    hide RunOps, Valid;
    if transferID == "" {
      assert FindByTransferID(m.State(), transferID).None?;
      return Some(TransferIDRequired);
    }
    var job := FindJob(m, transferID);
    if job.None? { return Some(JobNotFound); }
    var id := job.value.id;
    match job.value.status {
      case Offered => e := PerformOps(m, id, [MarkAccepted, MarkConnecting, MarkTransferring]);
      case Accepted => e := PerformOps(m, id, [MarkConnecting, MarkTransferring]);
      case Retryable => e := PerformOps(m, id, [MarkConnecting, MarkTransferring]);
      case Connecting => e := PerformOps(m, id, [MarkTransferring]);
      case Transferring =>
        NothingToDo(m.State(), id);
        return None;
      case Completed =>
        NothingToDo(m.State(), id);
        return None;
      case _ => return Some(InvalidJobStatus);
    }
    RunOpsKeepValid(old(m.State()), id, StartPlan(job.value.status).ops);
  }

  // The job bound to a transfer is found again after it has moved.
  lemma FoundAgain(s: Store, t: Store, transferID: string, id: string)
    requires Valid(s) && Valid(t) && OnlyJobMoved(s, t, id)
    requires transferID != "" && s.jobs[id].transferID == transferID
    ensures FindByTransferID(t, transferID) == Some(t.jobs[id])
  {
    FindIsOrderIndependent(t, transferID, id, id);
  }

  method CompleteTransferJob(m: JobManager, transferID: string) returns (e: Option<JobError>)
    requires Valid(m.State())
    modifies m
    ensures Valid(m.State())
    ensures var j := FindByTransferID(old(m.State()), transferID);
      if j.None? then m.State() == old(m.State()) && e == Some(if transferID == "" then TransferIDRequired else JobNotFound)
      else j.value.id in old(m.jobs) && (m.State(), e) == CompleteOutcome(old(m.State()), j.value.id)
  {
    hide RunOps, Valid, StartOutcome;
    if transferID == "" {
      assert FindByTransferID(m.State(), transferID).None?;
      return Some(TransferIDRequired);
    }
    var job := FindJob(m, transferID);
    if job.None? { return Some(JobNotFound); }
    var id := job.value.id;
    if job.value.status.Completed? { return None; }
    if !job.value.status.Transferring? {
      e := MarkTransferStarted(m, transferID);
      if e.Some? { return e; }
      StartReachesTransferring(old(m.State()), id);
      FoundAgain(old(m.State()), m.State(), transferID, id);
      job := FindJob(m, transferID);
      if job.None? { return Some(JobNotFound); }
      if job.value.status.Completed? { return None; }
      if !job.value.status.Transferring? { return Some(InvalidJobStatus); }
    }
    if job.value.direction.Send? && job.value.progressBytes != job.value.fileSizeBytes {
      return Some(ProgressOutOfRange);
    }
    RunOpsKeepValid(m.State(), id, [Complete]);
    e := PerformOps(m, id, [Complete]);
  }
}
