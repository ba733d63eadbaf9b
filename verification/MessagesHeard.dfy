// What each state message does to the job of its transfer, and how it is
// answered (internal/agentd/backend_client.go, handleEnvelope).
module MessagesHeard {
  import opened Wrappers
  import opened GoIntegers
  import opened Jobs
  import opened JobRuns
  import opened JobDrivers
  import opened Signaling
  import opened IncomingEnvelopes

  // The message is of this job's transfer.
  ghost predicate Concerns(s: Store, id: string, e: Envelope) {
    Valid(s) && id in s.jobs && s.jobs[id].transferID == e.transferID != ""
  }

  // It is addressed to this agent, if to any, and from the agent at the other
  // end, if from any: the browser of a link, or the other agent.
  predicate FromPeer(job: Job, agent: string, e: Envelope) {
    && (e.toAgentID == "" || e.toAgentID == agent)
    && (e.fromAgentID == ""
        || e.fromAgentID == (if job.direction.Receive? then job.fromAgentID
                             else if job.browserLink then "browser_recipient:" + job.transferID
                             else job.toAgentID))
  }

  // Whether it is acted on: expiry and cancellation whoever they come from.
  predicate Heeded(job: Job, agent: string, e: Envelope) {
    e.messageType.TransferExpired? || e.messageType.TransferCancelled? || FromPeer(job, agent, e)
  }

  lemma HeededFollows(s: Store, id: string, agent: string, e: Envelope)
    requires Concerns(s, id, e)
    ensures Heeded(s.jobs[id], agent, e) ==> HandleState(s, agent, e) == Follows(s, id, e)
    ensures !Heeded(s.jobs[id], agent, e) ==>
      HandleState(s, agent, e) == (s, Some(if e.toAgentID != "" && e.toAgentID != agent then NotForUs else NotFromPeer))
  {
    hide Valid, Follows;
    FindIsOrderIndependent(s, e.transferID, id, id);
    IDOf(s, id);
  }

  // A message of no transfer, of an unknown one, or from anyone else changes
  // nothing.
  lemma StrangersAreRefused(s: Store, agent: string, e: Envelope)
    requires Valid(s)
    ensures var (t, f) := HandleState(s, agent, e);
      && (e.transferID == "" ==> t == s && f == Some(NoTransferID))
      && (e.transferID != "" && (forall id :: id in s.jobs ==> s.jobs[id].transferID != e.transferID) ==> t == s && f == Some(NoSuchJob))
      && (forall id :: id in s.jobs && s.jobs[id].transferID == e.transferID != "" && !Heeded(s.jobs[id], agent, e) ==>
            t == s && f == Some(if e.toAgentID != "" && e.toAgentID != agent then NotForUs else NotFromPeer))
  {
    hide Valid, Follows, HandleState;
    NobodysMessage(s, agent, e);
    forall id | id in s.jobs && s.jobs[id].transferID == e.transferID != ""
      ensures !Heeded(s.jobs[id], agent, e) ==>
        HandleState(s, agent, e) == (s, Some(if e.toAgentID != "" && e.toAgentID != agent then NotForUs else NotFromPeer))
    {
      HeededFollows(s, id, agent, e);
    }
  }

  lemma NobodysMessage(s: Store, agent: string, e: Envelope)
    ensures e.transferID == "" ==> HandleState(s, agent, e) == (s, Some(NoTransferID))
    ensures e.transferID != "" && (forall id :: id in s.jobs ==> s.jobs[id].transferID != e.transferID) ==>
      HandleState(s, agent, e) == (s, Some(NoSuchJob))
  {
    hide Follows;
  }

  // The store with this job's record changed, and no other, or unchanged.
  predicate Becomes(s: Store, t: Store, id: string, job: Job) {
    && id in s.jobs && id in t.jobs && t.jobs[id] == job && t.jobs - {id} == s.jobs - {id}
    && (job == s.jobs[id] || t.jobs[id] != s.jobs[id])
  }

  // One operation by itself.
  lemma OneOp(s: Store, id: string, op: JobOp)
    requires id in s.jobs
    ensures var (t, e) := RunOps(s, id, [op]);
      match Apply(s, id, op).1
      case Ok(j) => e == None && id in t.jobs && t.jobs[id] == j && t.jobs - {id} == s.jobs - {id}
      case Err(f) => e == Some(f) && t == s
  {
    hide Mutate, Precheck, FillEvent, Draft;
    var t := Apply(s, id, op).0;
    assert RunOps(t, id, []) == (t, None);
  }

  // ---- One message after another ----

  lemma CancelledHeard(s: Store, id: string, e: Envelope)
    requires id in s.jobs && e.messageType.TransferCancelled?
    ensures var (t, f) := Follows(s, id, e);
      if s.jobs[id].status.IsTerminal() then t == s && f == Some(Refused(JobTerminal))
      else f.None? && Becomes(s, t, id, s.jobs[id].(status := JobStatus.Cancelled))
  {
    hide RunOps, FillEvent, Draft;
    OneOp(s, id, Cancel);
  }

  function FailureOf(m: MessageType): string {
    if m.TransferFailed? then "remote transfer failed" else if m.TransferDenied? then "remote transfer denied" else "remote transfer expired"
  }

  lemma FailureHeard(s: Store, id: string, e: Envelope)
    requires id in s.jobs && (e.messageType.TransferFailed? || e.messageType.TransferDenied? || e.messageType.TransferExpired?)
    ensures var (t, f) := Follows(s, id, e);
      && f.None?
      && if s.jobs[id].status.IsTerminal() then t == s
         else Becomes(s, t, id, s.jobs[id].(status := JobStatus.Failed, failureReason := FailureOf(e.messageType)))
  {
    hide RunOps, FillEvent, Draft;
    OneOp(s, id, Fail(FailureOf(e.messageType)));
  }

  lemma AcceptanceHeard(s: Store, id: string, e: Envelope)
    requires id in s.jobs && e.messageType.TransferAccepted?
    ensures var (t, f) := Follows(s, id, e);
      if s.jobs[id].status.IsTerminal() then t == s && f == Some(Refused(JobTerminal))
      else f.None? && if s.jobs[id].status.Offered? then Becomes(s, t, id, s.jobs[id].(status := Accepted)) else t == s
  {
    hide RunOps, FillEvent, Draft;
    OneOp(s, id, MarkAccepted);
  }

  lemma StartHeard(s: Store, id: string, e: Envelope)
    requires id in s.jobs && e.messageType.TransferStarted?
    ensures var (t, f) := Follows(s, id, e);
      var st := s.jobs[id].status;
      if st.Queued? || st.Interrupted? || st.Failed? || st.Cancelled? then t == s && f == Some(Refused(InvalidJobStatus))
      else f.None? && if st.Completed? || st.Transferring? then t == s else Becomes(s, t, id, s.jobs[id].(status := Transferring))
  {
    hide RunOps;
    StartReachesTransferring(s, id);
    NothingToDo(s, id);
  }

  // A report counts for a running send job.
  lemma ProgressHeardExactly(s: Store, id: string, e: Envelope)
    requires id in s.jobs && e.messageType.TransferProgress?
    ensures var (t, f) := Follows(s, id, e);
      var job := s.jobs[id];
      var p := if e.progress.Some? then e.progress.value else 0;
      if !(-0x8000_0000_0000_0000 <= p < 0x8000_0000_0000_0000) then t == s && f == Some(Malformed)
      else if job.direction.Receive? || !(job.status.Connecting? || job.status.Transferring?) then t == s && f.None?
      else if 0 <= p <= job.fileSizeBytes then f.None? && t.jobs - {id} == s.jobs - {id} && id in t.jobs && t.jobs[id] == job.(progressBytes := p)
      else t == s && f == Some(Refused(ProgressOutOfRange))
  {
    hide RunOps, FillEvent, Draft;
    if e.progress.Some? && Readable(e.progress) { OneOp(s, id, UpdateProgress(e.progress.value)); }
    OneOp(s, id, UpdateProgress(0));
  }

  // A sender first adopts the progress it is told, then either side is retryable.
  lemma RetryHeard(s: Store, id: string, e: Envelope)
    requires id in s.jobs && (e.messageType.TransferInterrupted? || e.messageType.TransferRetryable?)
    ensures var (t, f) := Follows(s, id, e);
      var job := s.jobs[id];
      var adopts := job.direction.Send? && e.progress.Some?;
      var st := job.status;
      if e.progress.Some? && !(-0x8000_0000_0000_0000 <= e.progress.value < 0x8000_0000_0000_0000) then t == s && f == Some(Malformed)
      else if st.IsTerminal() then t == s && f == if adopts then Some(Refused(JobTerminal)) else None
      else if adopts && !(0 <= e.progress.value <= job.fileSizeBytes) then t == s && f == Some(Refused(ProgressOutOfRange))
      else
        && f.None? && t.jobs - {id} == s.jobs - {id} && id in t.jobs
        && t.jobs[id] == job.(progressBytes := if adopts then e.progress.value else job.progressBytes,
                              status := if st.Queued? then JobStatus.Failed else JobStatus.Retryable,
                              failureReason := if st.Retryable? || st.Interrupted? then job.failureReason else "remote transfer interrupted")
  {
    hide RunOps, FillEvent, Draft, RetryOutcome;
    RetryReachesRetryable(s, id, REMOTE_INTERRUPTED);
    if e.progress.Some? && Readable(e.progress) && s.jobs[id].direction.Send? {
      OneOp(s, id, UpdateProgress(e.progress.value));
      var t := RunOps(s, id, [UpdateProgress(e.progress.value)]).0;
      if id in t.jobs { RetryReachesRetryable(t, id, REMOTE_INTERRUPTED); }
    }
  }

  lemma CompletionHeard(s: Store, id: string, e: Envelope)
    requires id in s.jobs && e.messageType.TransferCompleted?
    ensures var (t, f) := Follows(s, id, e);
      var job := s.jobs[id];
      var st := job.status;
      if job.direction.Receive? then t == s && f == Some(WrongDirection)
      else if st.Completed? then t == s && f.None?
      else if st.Queued? || st.Interrupted? || st.IsTerminal() then t == s && f == Some(Refused(InvalidJobStatus))
      else
        && t.jobs - {id} == s.jobs - {id} && id in t.jobs
        && if job.progressBytes == job.fileSizeBytes then f.None? && t.jobs[id] == job.(status := JobStatus.Completed)
           else f == Some(Refused(ProgressOutOfRange)) && t.jobs[id] == job.(status := Transferring)
  {
    hide CompleteOutcome;
    CompleteReachesCompleted(s, id);
  }

  // All of them together. The other messages change nothing.
  lemma MessageHeardExactly(s: Store, id: string, agent: string, e: Envelope)
    requires Concerns(s, id, e) && Heeded(s.jobs[id], agent, e) && !s.jobs[id].status.IsTerminal()
    ensures var (t, f) := HandleState(s, agent, e);
      var job := s.jobs[id];
      && id in t.jobs && t.jobs - {id} == s.jobs - {id}
      && match e.messageType
         case TransferCancelled => f.None? && t.jobs[id] == job.(status := JobStatus.Cancelled)
         case TransferFailed => f.None? && t.jobs[id] == job.(status := JobStatus.Failed, failureReason := "remote transfer failed")
         case TransferDenied => f.None? && t.jobs[id] == job.(status := JobStatus.Failed, failureReason := "remote transfer denied")
         case TransferExpired => f.None? && t.jobs[id] == job.(status := JobStatus.Failed, failureReason := "remote transfer expired")
         case TransferAccepted => f.None? && t.jobs[id] == (if job.status.Offered? then job.(status := Accepted) else job)
         case TransferStarted =>
           if job.status.Queued? || job.status.Interrupted? then f == Some(Refused(InvalidJobStatus)) && t.jobs[id] == job
           else f.None? && t.jobs[id] == job.(status := Transferring)
         case TransferProgress =>
           t.jobs[id] == job.(progressBytes := t.jobs[id].progressBytes)
           && (e.progress.Some? && job.direction.Send? && (job.status.Connecting? || job.status.Transferring?)
               && 0 <= e.progress.value <= job.fileSizeBytes
               ==> f.None? && t.jobs[id].progressBytes == e.progress.value)
           && (t.jobs[id].progressBytes != job.progressBytes ==>
                 job.direction.Send? && t.jobs[id].progressBytes == if e.progress.Some? then e.progress.value else 0)
         case TransferInterrupted => f.None? ==> t.jobs[id].status == (if job.status.Queued? then JobStatus.Failed else JobStatus.Retryable)
         case TransferRetryable => f.None? ==> t.jobs[id].status == (if job.status.Queued? then JobStatus.Failed else JobStatus.Retryable)
         case TransferCompleted => f.None? <==> t.jobs[id].status.Completed?
         case _ => f.None? && t == s
  {
    hide Valid, Follows;
    HeededFollows(s, id, agent, e);
    match e.messageType
    case TransferCancelled => CancelledHeard(s, id, e);
    case TransferFailed => FailureHeard(s, id, e);
    case TransferDenied => FailureHeard(s, id, e);
    case TransferExpired => FailureHeard(s, id, e);
    case TransferAccepted => AcceptanceHeard(s, id, e);
    case TransferStarted => StartHeard(s, id, e);
    case TransferProgress => ProgressHeardExactly(s, id, e);
    case TransferInterrupted => RetryHeard(s, id, e);
    case TransferRetryable => RetryHeard(s, id, e);
    case TransferCompleted => CompletionHeard(s, id, e);
    case _ => OthersUnheard(s, id, e);
  }

  lemma OthersUnheard(s: Store, id: string, e: Envelope)
    requires id in s.jobs
    requires var m := e.messageType;
      !(m.TransferAccepted? || m.TransferStarted? || m.TransferProgress? || m.TransferInterrupted? || m.TransferRetryable?
        || m.TransferCompleted? || m.TransferFailed? || m.TransferDenied? || m.TransferExpired? || m.TransferCancelled?)
    ensures Follows(s, id, e) == (s, None)
  {
  }

  // ---- The always-on socket ----

  // A message refused there, if it says who it is from, fails the job of its
  // transfer, unless that has ended; any other changes what it changes.
  lemma AlwaysOnHeard(s: Store, id: string, agent: string, e: Envelope)
    requires Concerns(s, id, e)
    ensures var (t, f) := HandleState(s, agent, e);
      var u := HandleAlwaysOn(s, agent, e);
      && (f.None? || e.fromAgentID == "" ==> u == t)
      && (f.Some? && e.fromAgentID != "" ==>
            && id in t.jobs && id in u.jobs && u.jobs - {id} == t.jobs - {id}
            && u.jobs[id] == if t.jobs[id].status.IsTerminal() then t.jobs[id]
                             else t.jobs[id].(status := JobStatus.Failed, failureReason := "state message refused"))
  {
    hide Valid, HandleState, RunOps, FillEvent, Draft, Follows;
    HandlingKeepsValid(s, agent, e);
    var t := HandleState(s, agent, e).0;
    KeepsItsTransfer(s, id, agent, e);
    FindIsOrderIndependent(t, e.transferID, id, id);
    IDOf(t, id);
    OneOp(t, id, Fail("state message refused"));
  }

  lemma KeepsItsTransfer(s: Store, id: string, agent: string, e: Envelope)
    requires Concerns(s, id, e)
    ensures var t := HandleState(s, agent, e).0; id in t.jobs && t.jobs[id].transferID == e.transferID
  {
    hide Valid, Follows;
    HeededFollows(s, id, agent, e);
    FollowsMovesOnly(s, id, e);
  }
}
