// The local job store and its event log (internal/agentd/jobs.go).
module Jobs {
  import opened Wrappers
  import opened GoIntegers
  import opened ChunkCrypto

  // A 32-octet transfer key, read as a number; the zero array is 0.
  const KEY_SPACE: int := 0x1_0000000000000000_0000000000000000_0000000000000000_0000000000000000

  type TransferKey = k: int | 0 <= k < KEY_SPACE

  const ZERO_KEY: TransferKey := 0

  datatype JobDirection = Send | Receive

  datatype JobStatus =
    | Queued | Offered | Accepted | Connecting | Transferring
    | Interrupted | Retryable | Completed | Failed | Cancelled
  {
    predicate IsTerminal() { Completed? || Failed? || Cancelled? }
  }

  datatype JobEventType = JobCreated | TransferBound | StatusChanged | ProgressChanged

  datatype JobError =
    | JobNotFound | JobTerminal | InvalidJobStatus | SourcePathRequired | TargetAgentRequired
    | BrowserTargetConflict | FromAgentRequired | FileNameRequired | FileSizeNegative
    | TransferIDRequired | DuplicateTransferID | ProgressOutOfRange | FailureReasonRequired
    | TransferKeyRequired

  datatype Job = Job(id: string, direction: JobDirection, status: JobStatus, transferID: string,
                     agentTicket: string, publicToken: string, browserURL: string,
                     transferKey: Option<TransferKey>, sourcePath: string, destinationPath: string,
                     fromAgentID: string, toAgentID: string, browserLink: bool,
                     fileName: string, fileSizeBytes: int64, progressBytes: int64,
                     failureReason: string, sequence: nat)

  datatype JobEvent = JobEvent(eventType: JobEventType, jobID: string, transferID: string,
                               status: JobStatus, progressBytes: int64, message: string, sequence: nat)

  // An event as an operation writes it, before the log fills in what it left out.
  datatype EventDraft = EventDraft(eventType: JobEventType, transferID: string, status: Option<JobStatus>,
                                   progressBytes: int64, message: string)

  datatype SendInput = SendInput(sourcePath: string, toAgentID: string, browserLink: bool,
                                 fileName: string, fileSizeBytes: int64)

  datatype ReceiveInput = ReceiveInput(transferID: string, fromAgentID: string, fileName: string,
                                       fileSizeBytes: int64, destinationPath: string)

  // The operations on one existing job.
  datatype JobOp =
    | AttachTransfer(transferID: string, agentTicket: string)
    | AttachPublicLink(publicToken: string, browserURL: string)
    | AttachTransferKey(key: TransferKey)
    | MarkOffered | MarkAccepted | MarkConnecting | MarkTransferring
    | UpdateProgress(progressBytes: int64)
    | Interrupt(reason: string)
    | MarkRetryable | ClaimRetryable | Complete
    | Fail(reason: string)
    | Cancel

  datatype Store = Store(jobs: map<string, Job>, events: map<string, seq<JobEvent>>, sequence: nat)

  const EMPTY_STORE: Store := Store(map[], map[], 0)

  predicate TransferIDTaken(jobs: map<string, Job>, transferID: string, exceptID: string) {
    exists id :: id in jobs && jobs[id].id != exceptID && jobs[id].transferID == transferID
  }

  function Transition(job: Job, from: JobStatus, to: JobStatus): Result<Job, JobError> {
    if job.status.IsTerminal() then Err(JobTerminal)
    else if job.status != from then Err(InvalidJobStatus)
    else Ok(job.(status := to))
  }

  // What an operation does to the record of its job.
  function Mutate(jobs: map<string, Job>, job: Job, op: JobOp): Result<Job, JobError> {
    match op
    case AttachTransfer(t, ticket) =>
      if job.status.IsTerminal() then Err(JobTerminal)
      else if TransferIDTaken(jobs, t, job.id) then Err(DuplicateTransferID)
      else Ok(job.(transferID := t, agentTicket := ticket))
    case AttachPublicLink(token, url) =>
      if job.status.IsTerminal() then Err(JobTerminal) else Ok(job.(publicToken := token, browserURL := url))
    case AttachTransferKey(key) =>
      if job.status.IsTerminal() then Err(JobTerminal) else Ok(job.(transferKey := Some(key)))
    case MarkOffered => Transition(job, Queued, Offered)
    case MarkAccepted => Transition(job, Offered, Accepted)
    case MarkConnecting =>
      if job.status.IsTerminal() then Err(JobTerminal)
      else if job.status.Accepted? || job.status.Retryable? then Ok(job.(status := Connecting))
      else if job.status.Connecting? || job.status.Transferring? then Ok(job)
      else Err(InvalidJobStatus)
    case MarkTransferring => Transition(job, Connecting, Transferring)
    case UpdateProgress(b) =>
      if job.status.IsTerminal() then Err(JobTerminal)
      else if b < 0 || b > job.fileSizeBytes then Err(ProgressOutOfRange)
      else Ok(job.(progressBytes := b))
    case Interrupt(reason) =>
      if job.status.IsTerminal() then Err(JobTerminal)
      else if !job.status.Connecting? && !job.status.Transferring? then Err(InvalidJobStatus)
      else Ok(job.(status := Interrupted, failureReason := reason))
    case MarkRetryable => Transition(job, Interrupted, Retryable)
    case ClaimRetryable => Transition(job, Retryable, Connecting)
    case Complete =>
      if job.status.IsTerminal() then Err(JobTerminal)
      else if !job.status.Transferring? then Err(InvalidJobStatus)
      else Ok(job.(status := Completed, progressBytes := job.fileSizeBytes))
    case Fail(reason) =>
      if job.status.IsTerminal() then Err(JobTerminal) else Ok(job.(status := Failed, failureReason := reason))
    case Cancel =>
      if job.status.IsTerminal() then Err(JobTerminal) else Ok(job.(status := Cancelled))
  }

  // What an operation refuses before it looks the job up.
  function Precheck(op: JobOp): Option<JobError> {
    match op
    case AttachTransfer(t, _) => if t == "" then Some(TransferIDRequired) else None
    case AttachTransferKey(key) => if key == ZERO_KEY then Some(TransferKeyRequired) else None
    case Interrupt(reason) => if reason == "" then Some(FailureReasonRequired) else None
    case Fail(reason) => if reason == "" then Some(FailureReasonRequired) else None
    case _ => None
  }

  function StatusDraft(status: JobStatus): EventDraft { EventDraft(StatusChanged, "", Some(status), 0, "") }

  function Draft(op: JobOp): EventDraft {
    match op
    case AttachTransfer(t, _) => EventDraft(TransferBound, t, None, 0, "")
    case AttachPublicLink(_, _) => EventDraft(TransferBound, "", None, 0, "")
    case AttachTransferKey(_) => EventDraft(TransferBound, "", None, 0, "")
    case MarkOffered => StatusDraft(Offered)
    case MarkAccepted => StatusDraft(Accepted)
    case MarkConnecting => EventDraft(StatusChanged, "", None, 0, "")
    case MarkTransferring => StatusDraft(Transferring)
    case UpdateProgress(b) => EventDraft(ProgressChanged, "", None, b, "")
    case Interrupt(reason) => EventDraft(StatusChanged, "", Some(Interrupted), 0, reason)
    case MarkRetryable => StatusDraft(Retryable)
    case ClaimRetryable => StatusDraft(Connecting)
    case Complete => StatusDraft(Completed)
    case Fail(reason) => EventDraft(StatusChanged, "", Some(Failed), 0, reason)
    case Cancel => StatusDraft(Cancelled)
  }

  // appendEventLocked: the fields an event left empty come from the job.
  function FillEvent(job: Job, d: EventDraft, sequence: nat): JobEvent {
    JobEvent(d.eventType, job.id,
             if d.transferID == "" then job.transferID else d.transferID,
             if d.status.None? then job.status else d.status.value,
             if d.progressBytes == 0 then job.progressBytes else d.progressBytes,
             d.message, sequence)
  }

  function LogOf(s: Store, id: string): seq<JobEvent> { if id in s.events then s.events[id] else [] }

  function AppendEvent(s: Store, job: Job, d: EventDraft): Store {
    Store(s.jobs, s.events[job.id := LogOf(s, job.id) + [FillEvent(job, d, s.sequence + 1)]], s.sequence + 1)
  }

  // update: store the mutated record, then log the event.
  function Apply(s: Store, id: string, op: JobOp): (Store, Result<Job, JobError>) {
    if Precheck(op).Some? then (s, Err(Precheck(op).value))
    else if id !in s.jobs then (s, Err(JobNotFound))
    else
      var m := Mutate(s.jobs, s.jobs[id], op);
      if m.Err? then (s, m)
      else (AppendEvent(s.(jobs := s.jobs[id := m.value]), m.value, Draft(op)), m)
  }

  function CheckSend(i: SendInput): Option<JobError> {
    if i.sourcePath == "" then Some(SourcePathRequired)
    else if i.browserLink && i.toAgentID != "" then Some(BrowserTargetConflict)
    else if !i.browserLink && i.toAgentID == "" then Some(TargetAgentRequired)
    else if i.fileName == "" then Some(FileNameRequired)
    else if i.fileSizeBytes < 0 then Some(FileSizeNegative)
    else None
  }

  function CheckReceive(s: Store, i: ReceiveInput): Option<JobError> {
    if i.transferID == "" then Some(TransferIDRequired)
    else if i.fromAgentID == "" then Some(FromAgentRequired)
    else if i.fileName == "" then Some(FileNameRequired)
    else if i.fileSizeBytes < 0 then Some(FileSizeNegative)
    else if TransferIDTaken(s.jobs, i.transferID, "") then Some(DuplicateTransferID)
    else None
  }

  function SendJob(id: string, i: SendInput, sequence: nat): Job {
    Job(id, Send, Queued, "", "", "", "", None, i.sourcePath, "", "", i.toAgentID, i.browserLink,
        i.fileName, i.fileSizeBytes, 0, "", sequence)
  }

  function ReceiveJob(id: string, i: ReceiveInput, sequence: nat): Job {
    Job(id, Receive, Offered, i.transferID, "", "", "", None, "", i.destinationPath, i.fromAgentID, "", false,
        i.fileName, i.fileSizeBytes, 0, "", sequence)
  }

  // The tail of both create operations.
  function Insert(s: Store, job: Job): Store {
    AppendEvent(Store(s.jobs[job.id := job], s.events, s.sequence + 1), job,
                EventDraft(JobCreated, "", Some(job.status), 0, ""))
  }

  function CreateSend(s: Store, newID: string, i: SendInput): (Store, Result<Job, JobError>) {
    var e := CheckSend(i);
    if e.Some? then (s, Err(e.value))
    else (Insert(s, SendJob(newID, i, s.sequence + 1)), Ok(SendJob(newID, i, s.sequence + 1)))
  }

  function CreateReceive(s: Store, newID: string, i: ReceiveInput): (Store, Result<Job, JobError>) {
    var e := CheckReceive(s, i);
    if e.Some? then (s, Err(e.value))
    else (Insert(s, ReceiveJob(newID, i, s.sequence + 1)), Ok(ReceiveJob(newID, i, s.sequence + 1)))
  }

  // Some job bound to the transfer, as a search in no particular order finds it.
  ghost function FindByTransferID(s: Store, transferID: string): (r: Option<Job>)
    ensures r.Some? ==> exists id :: id in s.jobs && s.jobs[id] == r.value && r.value.transferID == transferID
    ensures r.None? ==> transferID == "" || forall id :: id in s.jobs ==> s.jobs[id].transferID != transferID
  {
    if transferID != "" && exists id :: id in s.jobs && s.jobs[id].transferID == transferID then
      var id :| id in s.jobs && s.jobs[id].transferID == transferID;
      Some(s.jobs[id])
    else None
  }

  // The store object: two maps and a counter, updated in place. The ids drawn
  // at random by the program are parameters here.
  class JobManager {
    var jobs: map<string, Job>
    var events: map<string, seq<JobEvent>>
    var sequence: nat

    ghost function State(): Store
      reads this
    {
      Store(jobs, events, sequence)
    }

    constructor ()
      ensures State() == EMPTY_STORE
    {
      jobs, events, sequence := map[], map[], 0;
    }

    method NextSequence() returns (n: nat)
      modifies this`sequence
      ensures n == sequence == old(sequence) + 1
    {
      sequence := sequence + 1;
      n := sequence;
    }

    method AppendEventLocked(job: Job, d: EventDraft)
      modifies this
      ensures State() == AppendEvent(old(State()), job, d)
    {
      var event := JobEvent(d.eventType, job.id, d.transferID, job.status, d.progressBytes, d.message, 0);
      if event.transferID == "" { event := event.(transferID := job.transferID); }
      if d.status.Some? { event := event.(status := d.status.value); }
      if event.progressBytes == 0 { event := event.(progressBytes := job.progressBytes); }
      var n := NextSequence();
      event := event.(sequence := n);
      var log := if job.id in events then events[job.id] else [];
      events := events[job.id := log + [event]];
    }

    // The program's update takes the mutation as a closure, and so does this.
    method Update(jobID: string, mutate: Job -> Result<Job, JobError>, d: EventDraft) returns (r: Result<Job, JobError>)
      modifies this
      ensures jobID !in old(jobs) ==> State() == old(State()) && r == Err(JobNotFound)
      ensures jobID in old(jobs) ==>
        var m := mutate(old(jobs)[jobID]);
        r == m && State() == if m.Err? then old(State())
                             else AppendEvent(old(State()).(jobs := old(jobs)[jobID := m.value]), m.value, d)
    {
      if jobID !in jobs { return Err(JobNotFound); }
      var m := mutate(jobs[jobID]);
      if m.Err? { return m; }
      jobs := jobs[jobID := m.value];
      AppendEventLocked(m.value, d);
      return m;
    }

    method Do(jobID: string, op: JobOp) returns (r: Result<Job, JobError>)
      modifies this
      ensures (State(), r) == Apply(old(State()), jobID, op)
    {
      var refused := Precheck(op);
      if refused.Some? { return Err(refused.value); }
      var now := jobs;
      r := Update(jobID, job => Mutate(now, job, op), Draft(op));
    }

    method TransferIDExistsLocked(transferID: string, exceptID: string) returns (taken: bool)
      ensures taken == TransferIDTaken(jobs, transferID, exceptID)
    {
      var left := jobs.Keys;
      while left != {}
        invariant left <= jobs.Keys
        invariant forall id :: id in jobs.Keys - left ==>
                    jobs[id].id == exceptID || jobs[id].transferID != transferID
        decreases |left|
      {
        var id :| id in left;
        if jobs[id].id != exceptID && jobs[id].transferID == transferID { return true; }
        left := left - {id};
      }
      return false;
    }

    method CreateSendJob(newID: string, i: SendInput) returns (r: Result<Job, JobError>)
      modifies this
      ensures (State(), r) == CreateSend(old(State()), newID, i)
    {
      if i.sourcePath == "" { return Err(SourcePathRequired); }
      if i.browserLink && i.toAgentID != "" { return Err(BrowserTargetConflict); }
      if !i.browserLink && i.toAgentID == "" { return Err(TargetAgentRequired); }
      if i.fileName == "" { return Err(FileNameRequired); }
      if i.fileSizeBytes < 0 { return Err(FileSizeNegative); }
      var n := NextSequence();
      var job := SendJob(newID, i, n);
      jobs := jobs[newID := job];
      AppendEventLocked(job, EventDraft(JobCreated, "", Some(job.status), 0, ""));
      return Ok(job);
    }

    method CreateReceiveJob(newID: string, i: ReceiveInput) returns (r: Result<Job, JobError>)
      modifies this
      ensures (State(), r) == CreateReceive(old(State()), newID, i)
    {
      if i.transferID == "" { return Err(TransferIDRequired); }
      if i.fromAgentID == "" { return Err(FromAgentRequired); }
      if i.fileName == "" { return Err(FileNameRequired); }
      if i.fileSizeBytes < 0 { return Err(FileSizeNegative); }
      var taken := TransferIDExistsLocked(i.transferID, "");
      if taken { return Err(DuplicateTransferID); }
      var n := NextSequence();
      var job := ReceiveJob(newID, i, n);
      jobs := jobs[newID := job];
      AppendEventLocked(job, EventDraft(JobCreated, "", Some(job.status), 0, ""));
      return Ok(job);
    }

    // The search ranges over a Go map, so which of several matches it returns
    // is not determined here; JobRuns shows there is at most one.
    method Find(transferID: string) returns (r: Option<Job>)
      ensures r.Some? ==> transferID != "" && exists id :: id in jobs && jobs[id] == r.value && r.value.transferID == transferID
      ensures r.None? ==> transferID == "" || forall id :: id in jobs ==> jobs[id].transferID != transferID
    {
      if transferID == "" { return None; }
      var left := jobs.Keys;
      while left != {}
        invariant left <= jobs.Keys
        invariant forall id :: id in jobs.Keys - left ==> jobs[id].transferID != transferID
        decreases |left|
      {
        var id :| id in left;
        if jobs[id].transferID == transferID { return Some(jobs[id]); }
        left := left - {id};
      }
      return None;
    }
  }
}
