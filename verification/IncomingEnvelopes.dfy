// How a daemon's jobs follow the state messages of its peer
// (internal/agentd/backend_client.go, handleEnvelope).
module IncomingEnvelopes {
  import opened Wrappers
  import opened GoIntegers
  import opened Jobs
  import opened JobRuns
  import opened JobDrivers
  import opened Signaling

  datatype EnvelopeError = NoTransferID | NoSuchJob | NotForUs | NotFromPeer | Malformed | WrongDirection | Refused(error: JobError)

  // The agent a job expects to hear from (expectedPeerAgentID).
  function ExpectedPeer(job: Job): string {
    if job.direction.Send? then
      if job.browserLink then BrowserRecipient(job.transferID) else job.toAgentID
    else job.fromAgentID
  }

  // validateIncomingTransferEnvelope, given the job found for the transfer.
  function CheckIncoming(found: Option<Job>, agent: string, e: Envelope): Option<EnvelopeError> {
    if e.transferID == "" then Some(NoTransferID)
    else if found.None? then Some(NoSuchJob)
    else if e.toAgentID != "" && e.toAgentID != agent then Some(NotForUs)
    else if e.fromAgentID != "" && e.fromAgentID != ExpectedPeer(found.value) then Some(NotFromPeer)
    else None
  }

  function AsRefusal(e: Option<JobError>): Option<EnvelopeError> { if e.None? then None else Some(Refused(e.value)) }

  // failTransferJob on the job found.
  function FailOutcome(s: Store, id: string, reason: string): (Store, Option<JobError>)
    requires id in s.jobs
  {
    if s.jobs[id].status.IsTerminal() then (s, None) else RunOps(s, id, [Fail(reason)])
  }

  const REMOTE_INTERRUPTED: string := "remote transfer interrupted"

  // The payload of a progress or retryable message: absent, or a number that
  // must fit an int64.
  predicate Readable(progress: Option<int>) { progress.Some? ==> -TWO_TO_63 <= progress.value < TWO_TO_63 }

  // handleTransferRetryable: the sender adopts the reported progress, then
  // either side becomes retryable.
  function RetryableOutcome(s: Store, id: string, progress: Option<int>): (Store, Option<EnvelopeError>)
    requires id in s.jobs
  {
    if !Readable(progress) then (s, Some(Malformed))
    else
      var (t, e) := if progress.Some? && s.jobs[id].direction.Send? then RunOps(s, id, [UpdateProgress(progress.value)]) else (s, None);
      if e.Some? then (t, AsRefusal(e))
      else var (u, f) := RetryOutcome(t, id, REMOTE_INTERRUPTED); (u, AsRefusal(f))
  }

  function ProgressOutcome(s: Store, id: string, progress: Option<int>): (Store, Option<EnvelopeError>)
    requires id in s.jobs
  {
    if !Readable(progress) then (s, Some(Malformed))
    else
      var job := s.jobs[id];
      if !job.direction.Send? || (!job.status.Connecting? && !job.status.Transferring?) then (s, None)
      else
        var (t, e) := RunOps(s, id, [UpdateProgress(if progress.Some? then progress.value else 0)]);
        (t, AsRefusal(e))
  }

  // Two of them are acted on whoever they come from.
  predicate Unchecked(m: MessageType) { m.TransferExpired? || m.TransferCancelled? }

  // What a state message does to the store, once the job is found.
  function Follows(s: Store, id: string, e: Envelope): (Store, Option<EnvelopeError>)
    requires id in s.jobs
  {
    match e.messageType
    case TransferAccepted =>
      var (t, f) := RunOps(s, id, [MarkAccepted]);
      (t, if f == Some(InvalidJobStatus) then None else AsRefusal(f))
    case TransferStarted => var (t, f) := StartOutcome(s, id); (t, AsRefusal(f))
    case TransferProgress => ProgressOutcome(s, id, e.progress)
    case TransferInterrupted => RetryableOutcome(s, id, e.progress)
    case TransferRetryable => RetryableOutcome(s, id, e.progress)
    case TransferCompleted =>
      if s.jobs[id].direction.Receive? then (s, Some(WrongDirection))
      else var (t, f) := CompleteOutcome(s, id); (t, AsRefusal(f))
    case TransferFailed => var (t, f) := FailOutcome(s, id, "remote transfer failed"); (t, AsRefusal(f))
    case TransferDenied => var (t, f) := FailOutcome(s, id, "remote transfer denied"); (t, AsRefusal(f))
    case TransferExpired => var (t, f) := FailOutcome(s, id, "remote transfer expired"); (t, AsRefusal(f))
    case TransferCancelled => var (t, f) := RunOps(s, id, [Cancel]); (t, AsRefusal(f))
    case _ => (s, None)
  }

  ghost function HandleState(s: Store, agent: string, e: Envelope): (Store, Option<EnvelopeError>) {
    var found := FindByTransferID(s, e.transferID);
    if e.transferID == "" then (s, Some(NoTransferID))
    else if found.None? then (s, Some(NoSuchJob))
    else if !Unchecked(e.messageType) && CheckIncoming(found, agent, e).Some? then (s, CheckIncoming(found, agent, e))
    else if found.value.id !in s.jobs then (s, Some(NoSuchJob))
    else Follows(s, found.value.id, e)
  }

  // ---- What a state message can do ----

  // Only its own job moves, and the job keeps its identity and binding.
  ghost predicate MovesOnly(s: Store, t: Store, id: string) {
    Valid(t) && (t == s || OnlyJobMoved(s, t, id))
  }

  lemma {:induction false} RunOpsMoveOnly(s: Store, id: string, ops: seq<JobOp>)
    requires Valid(s) && id in s.jobs && forall op :: op in ops ==> !op.AttachTransfer?
    ensures MovesOnly(s, RunOps(s, id, ops).0, id)
    ensures (forall op :: op in ops ==> !op.Complete?) && RunOps(s, id, ops).0.jobs[id].status.Completed? ==> s.jobs[id].status.Completed?
    decreases |ops|
  {
    hide Apply, Valid;
    if ops != [] {
      assert ops[0] in ops;
      ApplyKeepsValid(s, id, ops[0]);
      OneOpMovesOnly(s, id, ops[0]);
      var t := Apply(s, id, ops[0]).0;
      if Apply(s, id, ops[0]).1.Ok? {
        assert forall op :: op in ops[1..] ==> op in ops;
        RunOpsMoveOnly(t, id, ops[1..]);
        var u := RunOps(t, id, ops[1..]).0;
        assert u.jobs - {id} == t.jobs - {id} == s.jobs - {id};
      }
    }
  }

  lemma OneOpMovesOnly(s: Store, id: string, op: JobOp)
    requires id in s.jobs && !op.AttachTransfer?
    ensures var (t, r) := Apply(s, id, op);
      if r.Err? then t == s
      else OnlyJobMoved(s, t, id) && (t.jobs[id].status.Completed? ==> s.jobs[id].status.Completed? || op.Complete?)
  {
    hide FillEvent, Draft;
  }

  lemma RetryMovesOnly(s: Store, id: string, reason: string)
    requires Valid(s) && id in s.jobs
    ensures MovesOnly(s, RetryOutcome(s, id, reason).0, id)
    ensures RetryOutcome(s, id, reason).0.jobs[id].status.Completed? ==> s.jobs[id].status.Completed?
  {
    hide RunOps, Valid, OnlyJobMoved;
    if reason != "" && RetryPlan(s.jobs[id].status, reason).Perform? {
      RunOpsMoveOnly(s, id, RetryPlan(s.jobs[id].status, reason).ops);
    }
  }

  lemma ThenMovesOnly(s: Store, t: Store, u: Store, id: string)
    requires id in s.jobs && MovesOnly(s, t, id) && MovesOnly(t, u, id)
    ensures MovesOnly(s, u, id)
  {
    hide Valid;
  }

  lemma CompletionMovesOnly(s: Store, id: string)
    requires Valid(s) && id in s.jobs
    ensures MovesOnly(s, CompleteOutcome(s, id).0, id)
  {
    hide RunOps, Valid, OnlyJobMoved, StartOutcome;
    var t := if s.jobs[id].status.Transferring? then s else StartOutcome(s, id).0;
    StartMovesOnly(s, id);
    if id in t.jobs { RunOpsMoveOnly(t, id, [Complete]); }
    MovedIsThere(s, t, id);
    ThenMovesOnly(s, t, RunOps(t, id, [Complete]).0, id);
  }

  lemma MovedIsThere(s: Store, t: Store, id: string)
    requires id in s.jobs && MovesOnly(s, t, id)
    ensures id in t.jobs && Valid(t)
  {
  }

  lemma StartMovesOnly(s: Store, id: string)
    requires Valid(s) && id in s.jobs
    ensures MovesOnly(s, StartOutcome(s, id).0, id) && id in StartOutcome(s, id).0.jobs
    ensures StartOutcome(s, id).0.jobs[id].status.Completed? ==> s.jobs[id].status.Completed?
  {
    hide RunOps, Valid;
    if StartPlan(s.jobs[id].status).Perform? { RunOpsMoveOnly(s, id, StartPlan(s.jobs[id].status).ops); }
  }

  // A state message moves no job but the one of its transfer, along legal
  // steps.
  lemma FollowsMovesOnly(s: Store, id: string, e: Envelope)
    requires Valid(s) && id in s.jobs
    ensures MovesOnly(s, Follows(s, id, e).0, id)
  {
    hide RunOps, Valid, OnlyJobMoved, RetryOutcome, CompleteOutcome, StartOutcome;
    match e.messageType
    case TransferAccepted => RunOpsMoveOnly(s, id, [MarkAccepted]);
    case TransferStarted => StartMovesOnly(s, id);
    case TransferProgress =>
      var p := if e.progress.Some? && Readable(e.progress) then e.progress.value else 0;
      RunOpsMoveOnly(s, id, [UpdateProgress(p)]);
    case TransferInterrupted => RetryableMovesOnly(s, id, e.progress);
    case TransferRetryable => RetryableMovesOnly(s, id, e.progress);
    case TransferCompleted => CompletionMovesOnly(s, id);
    case TransferFailed => RunOpsMoveOnly(s, id, [Fail("remote transfer failed")]);
    case TransferDenied => RunOpsMoveOnly(s, id, [Fail("remote transfer denied")]);
    case TransferExpired => RunOpsMoveOnly(s, id, [Fail("remote transfer expired")]);
    case TransferCancelled => RunOpsMoveOnly(s, id, [Cancel]);
    case _ =>
  }

  lemma RetryableMovesOnly(s: Store, id: string, progress: Option<int>)
    requires Valid(s) && id in s.jobs
    ensures MovesOnly(s, RetryableOutcome(s, id, progress).0, id)
    ensures RetryableOutcome(s, id, progress).0.jobs[id].status.Completed? ==> s.jobs[id].status.Completed?
  {
    hide RunOps, Valid, RetryOutcome;
    var ops: seq<JobOp> :=
      if progress.Some? && Readable(progress) && s.jobs[id].direction.Send? then [UpdateProgress(progress.value)] else [];
    RunOpsMoveOnly(s, id, ops);
    NothingToDo(s, id);
    var t := RunOps(s, id, ops).0;
    RetryMovesOnly(t, id, REMOTE_INTERRUPTED);
    ThenMovesOnly(s, t, RetryOutcome(t, id, REMOTE_INTERRUPTED).0, id);
  }

  // And a job becomes Completed by a message only if it is a send job that has
  // reported its whole size, and the message is a completion addressed to this
  // agent by the very peer the job expects.
  lemma OnlyThePeerCompletes(s: Store, agent: string, e: Envelope, id: string)
    requires Valid(s) && id in s.jobs
    ensures var t := HandleState(s, agent, e).0;
      && Valid(t) && id in t.jobs
      && (t.jobs[id].status.Completed? && !s.jobs[id].status.Completed? ==>
            && e.messageType.TransferCompleted? && e.transferID != "" && s.jobs[id].transferID == e.transferID
            && s.jobs[id].direction.Send? && s.jobs[id].progressBytes == s.jobs[id].fileSizeBytes
            && (e.toAgentID == "" || e.toAgentID == agent)
            && (e.fromAgentID == "" || e.fromAgentID == ExpectedPeer(s.jobs[id])))
  {
    hide Follows, Valid;
    var (t, f) := HandleState(s, agent, e);
    if t != s {
      var job := FindByTransferID(s, e.transferID).value;
      FoundUnderItsID(s, e.transferID);
      FollowsMovesOnly(s, job.id, e);
      if id != job.id {
        assert id in s.jobs - {job.id} && (t.jobs - {job.id})[id] == t.jobs[id];
      } else if t.jobs[id].status.Completed? && !s.jobs[id].status.Completed? {
        FollowsCompletes(s, id, e);
      }
    }
  }

  lemma FoundUnderItsID(s: Store, transferID: string)
    requires Valid(s) && FindByTransferID(s, transferID).Some?
    ensures var job := FindByTransferID(s, transferID).value;
      job.id in s.jobs && s.jobs[job.id] == job && job.transferID == transferID
  {
    hide GoodLog;
    var job := FindByTransferID(s, transferID).value;
    var id :| id in s.jobs && s.jobs[id] == job;
    assert GoodJob(id, job, s.sequence);
  }

  lemma FollowsCompletes(s: Store, id: string, e: Envelope)
    requires Valid(s) && id in s.jobs && id in Follows(s, id, e).0.jobs
    requires Follows(s, id, e).0.jobs[id].status.Completed? && !s.jobs[id].status.Completed?
    ensures e.messageType.TransferCompleted? && s.jobs[id].direction.Send? && s.jobs[id].progressBytes == s.jobs[id].fileSizeBytes
  {
    hide RunOps, Valid, OnlyJobMoved, RetryOutcome, CompleteOutcome, StartOutcome;
    match e.messageType
    case TransferAccepted => RunOpsMoveOnly(s, id, [MarkAccepted]);
    case TransferStarted => StartMovesOnly(s, id);
    case TransferProgress =>
      var p := if e.progress.Some? && Readable(e.progress) then e.progress.value else 0;
      RunOpsMoveOnly(s, id, [UpdateProgress(p)]);
    case TransferInterrupted => RetryableMovesOnly(s, id, e.progress);
    case TransferRetryable => RetryableMovesOnly(s, id, e.progress);
    case TransferCompleted => CompleteReachesCompleted(s, id);
    case TransferFailed => RunOpsMoveOnly(s, id, [Fail("remote transfer failed")]);
    case TransferDenied => RunOpsMoveOnly(s, id, [Fail("remote transfer denied")]);
    case TransferExpired => RunOpsMoveOnly(s, id, [Fail("remote transfer expired")]);
    case TransferCancelled => RunOpsMoveOnly(s, id, [Cancel]);
    case _ =>
  }

  // A completed job stays completed, whatever arrives.
  lemma FollowsKeepCompleted(s: Store, id: string, e: Envelope)
    requires Valid(s) && id in s.jobs && s.jobs[id].status.Completed?
    ensures var t := Follows(s, id, e).0; id in t.jobs && t.jobs[id].status.Completed?
  {
    hide RunOps, Valid;
    forall ops: seq<JobOp> ensures RunOps(s, id, ops).0 == s { OpsRefusedOnTerminal(s, id, ops); }
  }

  lemma OpsRefusedOnTerminal(s: Store, id: string, ops: seq<JobOp>)
    requires id in s.jobs && s.jobs[id].status.IsTerminal()
    ensures RunOps(s, id, ops).0 == s
  {
    hide Draft, FillEvent;
  }

  // ---- The handler over the daemon's job store ----

  method FailTransferJob(m: JobManager, transferID: string, reason: string) returns (e: Option<EnvelopeError>)
    requires Valid(m.State()) && reason != ""
    modifies m
    ensures var j := FindByTransferID(old(m.State()), transferID);
      if transferID == "" then m.State() == old(m.State()) && e == Some(NoTransferID)
      else if j.None? then m.State() == old(m.State()) && e == Some(NoSuchJob)
      else j.value.id in old(m.jobs)
           && var (t, f) := FailOutcome(old(m.State()), j.value.id, reason); m.State() == t && e == AsRefusal(f)
  {
    hide RunOps, Valid;
    if transferID == "" { return Some(NoTransferID); }
    var job := FindJob(m, transferID);
    if job.None? { return Some(NoSuchJob); }
    if job.value.status.IsTerminal() { return None; }
    var f := PerformOps(m, job.value.id, [Fail(reason)]);
    return AsRefusal(f);
  }

  method HandleTransferRetryable(m: JobManager, agent: string, e: Envelope) returns (f: Option<EnvelopeError>)
    requires Valid(m.State()) && (e.messageType.TransferInterrupted? || e.messageType.TransferRetryable?)
    modifies m
    ensures (m.State(), f) == HandleState(old(m.State()), agent, e)
  {
    hide RunOps, Valid, RetryOutcome;
    if e.transferID == "" { return Some(NoTransferID); }
    var found := FindJob(m, e.transferID);
    var refused := CheckIncoming(found, agent, e);
    if refused.Some? { return refused; }
    var id := found.value.id;
    if e.progress.Some? {
      if !Readable(e.progress) { return Some(Malformed); }
      if found.value.direction.Send? {
        var g := PerformOps(m, id, [UpdateProgress(e.progress.value)]);
        if g.Some? { return AsRefusal(g); }
      }
    }
    var g := MarkJobRetryableIfMutable(m, id, REMOTE_INTERRUPTED);
    return AsRefusal(g);
  }

  method HandleStateMessage(m: JobManager, agent: string, e: Envelope) returns (f: Option<EnvelopeError>)
    requires Valid(m.State())
    modifies m
    ensures (m.State(), f) == HandleState(old(m.State()), agent, e)
  {
    hide RunOps, Valid, RetryableOutcome, StartOutcome, CompleteOutcome;
    if e.messageType.TransferInterrupted? || e.messageType.TransferRetryable? {
      f := HandleTransferRetryable(m, agent, e);
      return;
    }
    if e.transferID == "" { return Some(NoTransferID); }
    var found := FindJob(m, e.transferID);
    if found.None? { return Some(NoSuchJob); }
    if !Unchecked(e.messageType) {
      var refused := CheckIncoming(found, agent, e);
      if refused.Some? { return refused; }
    }
    var id, job := found.value.id, found.value;
    var g: Option<JobError>;
    match e.messageType {
      case TransferAccepted =>
        g := PerformOps(m, id, [MarkAccepted]);
        f := if g == Some(InvalidJobStatus) then None else AsRefusal(g);
      case TransferStarted =>
        g := MarkTransferStarted(m, e.transferID);
        f := AsRefusal(g);
      case TransferProgress =>
        if !Readable(e.progress) { return Some(Malformed); }
        if job.status.IsTerminal() || job.direction.Receive? { return None; }
        if !job.status.Connecting? && !job.status.Transferring? { return None; }
        g := PerformOps(m, id, [UpdateProgress(if e.progress.Some? then e.progress.value else 0)]);
        f := AsRefusal(g);
      case TransferCompleted =>
        if job.direction.Receive? { return Some(WrongDirection); }
        g := CompleteTransferJob(m, e.transferID);
        f := AsRefusal(g);
      case TransferFailed => f := FailTransferJob(m, e.transferID, "remote transfer failed");
      case TransferDenied => f := FailTransferJob(m, e.transferID, "remote transfer denied");
      case TransferExpired => f := FailTransferJob(m, e.transferID, "remote transfer expired");
      case TransferCancelled =>
        g := PerformOps(m, id, [Cancel]);
        f := AsRefusal(g);
      case _ => f := None;
    }
  }

  // The daemon's always-on socket: a message whose handling fails also fails
  // the job it names.
  ghost function HandleAlwaysOn(s: Store, agent: string, e: Envelope): Store {
    var (t, f) := HandleState(s, agent, e);
    var found := FindByTransferID(t, e.transferID);
    if f.Some? && e.transferID != "" && e.fromAgentID != "" && found.Some? && found.value.id in t.jobs
    then FailOutcome(t, found.value.id, "state message refused").0
    else t
  }

  // runReceiverOnce, for one state message.
  method HearOnAlwaysOnSocket(m: JobManager, agent: string, e: Envelope)
    requires Valid(m.State())
    modifies m
    ensures m.State() == HandleAlwaysOn(old(m.State()), agent, e)
  {
    hide RunOps, Valid, HandleState;
    HandlingKeepsValid(m.State(), agent, e);
    var f := HandleStateMessage(m, agent, e);
    if f.Some? && e.transferID != "" && e.fromAgentID != "" {
      var found := FindJob(m, e.transferID);
      if found.Some? {
        var g := FailTransferJob(m, e.transferID, "state message refused");
      }
    }
  }

  lemma HandlingKeepsValid(s: Store, agent: string, e: Envelope)
    requires Valid(s)
    ensures Valid(HandleState(s, agent, e).0)
  {
    hide Follows, Valid;
    var t := HandleState(s, agent, e).0;
    if t != s {
      FoundUnderItsID(s, e.transferID);
      FollowsMovesOnly(s, FindByTransferID(s, e.transferID).value.id, e);
    }
  }

  // An accepted completion, exactly: the send job it names ends Completed if
  // and only if it already was, or can be started and has its whole size
  // reported.
  lemma CompletionHeardExactly(s: Store, id: string, agent: string, e: Envelope)
    requires Valid(s) && id in s.jobs && s.jobs[id].transferID == e.transferID != "" && s.jobs[id].direction.Send?
    requires e.messageType.TransferCompleted? && CheckIncoming(Some(s.jobs[id]), agent, e).None?
    ensures var t := HandleState(s, agent, e).0;
      && id in t.jobs
      && (t.jobs[id].status.Completed? <==>
            s.jobs[id].status.Completed?
            || (StartPlan(s.jobs[id].status).Perform? && s.jobs[id].progressBytes == s.jobs[id].fileSizeBytes))
  {
    hide Valid, CompleteOutcome;
    FindIsOrderIndependent(s, e.transferID, id, id);
    FoundUnderItsID(s, e.transferID);
    IDOf(s, id);
    CompleteReachesCompleted(s, id);
    CompletionMovesOnly(s, id);
    MovedIsThere(s, CompleteOutcome(s, id).0, id);
  }

  lemma IDOf(s: Store, id: string)
    requires Valid(s) && id in s.jobs
    ensures s.jobs[id].id == id
  {
    hide GoodLog;
    assert GoodJob(id, s.jobs[id], s.sequence);
  }

  // A progress report of the peer on a job that is under way is stored.
  lemma ProgressHeard(s: Store, id: string, agent: string, e: Envelope, p: int64)
    requires Valid(s) && id in s.jobs && s.jobs[id].transferID == e.transferID != "" && s.jobs[id].direction.Send?
    requires s.jobs[id].status.Connecting? || s.jobs[id].status.Transferring?
    requires e.messageType.TransferProgress? && e.progress == Some(p) && 0 <= p <= s.jobs[id].fileSizeBytes
    requires CheckIncoming(Some(s.jobs[id]), agent, e).None?
    ensures var t := HandleState(s, agent, e).0;
      OnlyJobMoved(s, t, id) && t.jobs[id] == s.jobs[id].(progressBytes := p)
  {
    hide Valid, RunOps;
    FindIsOrderIndependent(s, e.transferID, id, id);
    FoundUnderItsID(s, e.transferID);
    IDOf(s, id);
    OneUpdate(s, id, p);
  }

  lemma OneUpdate(s: Store, id: string, p: int64)
    requires id in s.jobs && !s.jobs[id].status.IsTerminal() && 0 <= p <= s.jobs[id].fileSizeBytes
    ensures var (t, e) := RunOps(s, id, [UpdateProgress(p)]);
      e == None && OnlyJobMoved(s, t, id) && t.jobs[id] == s.jobs[id].(progressBytes := p)
  {
    hide FillEvent, Draft;
    var t := Apply(s, id, UpdateProgress(p)).0;
    assert RunOps(t, id, []) == (t, None);
  }
}
