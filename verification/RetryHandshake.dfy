// From an interrupted attempt to the next one that works: the receiver leaves
// retryably, its message reaches the sender, and both ends take up again.
module RetryHandshake {
  import opened Wrappers
  import opened GoIntegers
  import opened ChunkCrypto
  import opened Frames
  import opened ReceiverProtocol
  import opened ReceiverLatch
  import opened SenderProtocol
  import opened StreamSimulation
  import opened PrefixSafety
  import opened Jobs
  import opened JobRuns
  import opened JobDrivers
  import opened Resume
  import opened Files
  import opened Signaling
  import opened IncomingEnvelopes
  import opened LiveProgress
  import opened LiveReceiver

  // The sender's job while its transfer can still be retried.
  ghost predicate Retriable(s: Store, id: string) {
    && Valid(s) && id in s.jobs && s.jobs[id].transferID != "" && s.jobs[id].direction.Send?
    && !s.jobs[id].status.IsTerminal() && !s.jobs[id].status.Queued?
  }

  // A retryable message of the expected peer, with this progress.
  predicate ReportsRetryable(e: Envelope, job: Job, agent: string, progress: int) {
    && e.messageType.TransferRetryable? && e.transferID == job.transferID && e.progress == Some(progress)
    && (e.toAgentID == "" || e.toAgentID == agent)
    && (e.fromAgentID == "" || e.fromAgentID == ExpectedPeer(job))
  }

  lemma AdoptedOutcome(s: Store, id: string, p: int64)
    requires id in s.jobs && s.jobs[id].direction.Send? && !s.jobs[id].status.IsTerminal() && !s.jobs[id].status.Queued?
    requires 0 <= p <= s.jobs[id].fileSizeBytes
    ensures var (t, f) := RetryableOutcome(s, id, Some(p));
      f.None? && OnlyJobMoved(s, t, id) && t.jobs[id].status.Retryable? && t.jobs[id].progressBytes == p
  {
    hide RunOps, RetryOutcome;
    OneUpdate(s, id, p);
    var t := RunOps(s, id, [UpdateProgress(p)]).0;
    RetryReachesRetryable(t, id, REMOTE_INTERRUPTED);
    var u := RetryOutcome(t, id, REMOTE_INTERRUPTED).0;
    assert u.jobs - {id} == t.jobs - {id} == s.jobs - {id};
  }

  // The sender becomes retryable at exactly the reported progress, whatever it
  // had recorded before.
  lemma SenderAdoptsProgress(s: Store, id: string, agent: string, e: Envelope, p: int64)
    requires Retriable(s, id) && ReportsRetryable(e, s.jobs[id], agent, p) && 0 <= p <= s.jobs[id].fileSizeBytes
    ensures var (t, f) := HandleState(s, agent, e);
      && f.None? && OnlyJobMoved(s, t, id)
      && t.jobs[id].status.Retryable? && t.jobs[id].progressBytes == p
  {
    hide Valid, RetryableOutcome;
    FindIsOrderIndependent(s, e.transferID, id, id);
    FoundUnderItsID(s, e.transferID);
    IDOf(s, id);
    AdoptedOutcome(s, id, p);
  }

  // What an attempt leaves in its partial file is the source's own beginning.
  lemma LeftPartialIsAPrefix(c: RxConfig, sources: map<string, Bytes>, log: set<SealedChunk>, rx0: RxState, run: seq<Delivery>,
                             s: Store, disk: Disk, told: seq<Signal>, job: Job)
    requires c.DemandsEncryption() && HonestLog(sources, log) && UnforgedRun(c, log, run)
    requires c.transferID in sources && |sources[c.transferID]| < TWO_TO_63
    requires Starting(rx0) && rx0.hashed <= sources[c.transferID]
    requires LeftInStep(s, disk, told, job, Play(c, rx0, run).state)
    ensures PartialPath(job.destinationPath) in disk && disk[PartialPath(job.destinationPath)] <= sources[c.transferID]
  {
    hide Play, InStep, HonestLog, UnforgedRun, PartialPath;
    AttemptKeepsPrefix(c, sources, log, rx0, run);
    LatchInvariant(c, rx0, run);
    HashedWithin(rx0, Play(c, rx0, run).state, AcceptedChunks(Play(c, rx0, run).results));
  }

  lemma HashedWithin(s0: RxState, s: RxState, accepted: nat)
    requires Latched(s0, s, accepted)
    ensures s.hashed <= s0.hashed + s.written
  {
    hide WrapInt64, WrapUint64;
    assert s.hashed == s0.hashed + s.hashed[|s0.hashed|..];
  }

  // Put together: a live receiver, which started from a beginning of the source
  // and met any network, has left retryably (the state its method guarantees);
  // its last message reaches the sender; and the next stream the sender runs
  // from there to its end is accepted from the first frame to the manifest, and
  // completes the file.
  lemma RetriedTransferResumes(send: Store, id: string, agent: string, e: Envelope,
                               receive: Store, job: Job, disk: Disk, told: seq<Signal>, rx0: RxState, run: seq<Delivery>,
                               sources: map<string, Bytes>, log: set<SealedChunk>,
                               c: TxConfig, r: RxConfig, script: Script)
    requires r.transferID in sources && |sources[r.transferID]| < TWO_TO_63 && HonestLog(sources, log)
    requires r.DemandsEncryption() && UnforgedRun(r, log, run) && Starting(rx0) && rx0.hashed <= sources[r.transferID]
    requires Holds(receive, job) && LeftInStep(receive, disk, told, job, Play(r, rx0, run).state)
    requires !receive.jobs[job.id].status.IsTerminal()
    requires Retriable(send, id) && send.jobs[id].fileSizeBytes == |sources[r.transferID]| == job.fileSizeBytes
    requires job.transferID == send.jobs[id].transferID == c.transferID && Paired(c, r)
    requires ReportsRetryable(e, send.jobs[id], agent, told[|told| - 1].bytes)
    requires var s := HandleState(send, agent, e).0;
             id in s.jobs && LiveSenderResume(sources[r.transferID], s.jobs[id], c.digest) == Ok(c.resume)
    requires |disk[PartialPath(job.destinationPath)]| <= |sources[r.transferID]| ==>
               Delivers(sources[r.transferID][|disk[PartialPath(job.destinationPath)]|..], script.turns)
    requires Stream(c, sources[r.transferID], script).result.Finished?
    ensures var part := Some(disk[PartialPath(job.destinationPath)]);
      var rx := LiveReceiverResume(part, receive.jobs[job.id], c.digest);
      && rx.Ok? && ReceiverAt(r, part, rx.value).Ok?
      && var o := Stream(c, sources[r.transferID], script);
         var p := Play(r, ReceiverAt(r, part, rx.value).value, InOrder(o.state.sent));
         && |o.state.sent| > 0
         && (forall k :: 0 <= k < |o.state.sent| - 1 ==> p.results[k] == Ok(None))
         && p.results[|o.state.sent| - 1] == Ok(Some(o.result.manifest))
         && HeldBefore(part, rx.value) + p.state.written == sources[r.transferID]
  {
    hide Stream, Play, LiveSenderResume, LiveReceiverResume, HandleState, Valid, Delivers, ReceiverAt, HonestLog, UnforgedRun;
    LeftPartialIsAPrefix(r, sources, log, rx0, run, receive, disk, told, job);
    var source := sources[r.transferID];
    var part := Some(disk[PartialPath(job.destinationPath)]);
    SenderAdoptsProgress(send, id, agent, e, |part.value|);
    var s := HandleState(send, agent, e).0;
    assert AgreedSnapshots(source, part, s.jobs[id], receive.jobs[job.id]);
    ResumedStreamIsReceived(c, r, source, part, s.jobs[id], receive.jobs[job.id], script);
  }
}
