// The live receiver of the daemon (internal/agentd/backend_client.go,
// runLiveReceiverOnce): it keeps the partial file, the stored progress and the
// progress it reports in step, and commits before it announces completion.
module LiveReceiver {
  import opened Wrappers
  import opened GoIntegers
  import opened ChunkCrypto
  import opened Frames
  import opened ReceiverProtocol
  import opened ReceiverLatch
  import opened Jobs
  import opened JobRuns
  import opened JobDrivers
  import opened Resume
  import opened Files
  import opened LiveProgress

  class Outbox {
    var sent: seq<Signal>

    constructor ()
      ensures sent == []
    {
      sent := [];
    }

    method Send(s: Signal)
      modifies this
      ensures sent == old(sent) + [s]
    {
      sent := sent + [s];
    }
  }

  function PartialPath(destination: string): string { destination + ".part" }

  // ---- Leaving by the retryable path ----

  // What the closure `retryable` settles on a disk and a store: the job is made
  // retryable, then the partial file and the stored progress are brought to
  // the smaller of the two, which is what gets reported.
  function SettleDisk(d: Disk, partial: string, progress: int): Disk {
    if partial in d && 0 <= progress < |d[partial]| then d[partial := d[partial][..progress]] else d
  }

  function SettleStore(s: Store, id: string, reason: string, size: nat): Store
    requires id in s.jobs
  {
    var t := RetryOutcome(s, id, reason).0;
    if size < s.jobs[id].progressBytes && size < TWO_TO_63 then Apply(t, id, UpdateProgress(size)).0 else t
  }

  // The reported, the stored and the durable progress are one number, and the
  // partial keeps a leading part of what it held.
  ghost predicate InStep(s: Store, id: string, d: Disk, partial: string, reported: int) {
    && id in s.jobs && partial in d
    && s.jobs[id].progressBytes == |d[partial]| == reported
    && s.jobs[id].status.Retryable?
  }

  lemma SettlingPutsInStep(s: Store, id: string, d: Disk, partial: string, reason: string)
    requires Valid(s) && id in s.jobs && partial in d && reason != ""
    requires !s.jobs[id].status.Queued?
    ensures var t := SettleStore(s, id, reason, |d[partial]|);
      var e := SettleDisk(d, partial, s.jobs[id].progressBytes);
      var reported := if |d[partial]| < s.jobs[id].progressBytes then |d[partial]| else s.jobs[id].progressBytes;
      && id in t.jobs
      && (!t.jobs[id].status.IsTerminal() ==> InStep(t, id, e, partial, reported))
      && partial in e && e[partial] <= d[partial] && e - {partial} == d - {partial}
      && (s.jobs[id].status.IsTerminal() ==> t == s)
      && (|d[partial]| >= s.jobs[id].progressBytes ==> t == RetryOutcome(s, id, reason).0)
      && t.jobs[id] == s.jobs[id].(status := t.jobs[id].status, progressBytes := t.jobs[id].progressBytes,
                                   failureReason := t.jobs[id].failureReason)
      && (IsRunning(s.jobs[id].status) ==> t.jobs[id].failureReason == reason)
  {
    hide RetryOutcome, GoodLog;
    assert GoodJob(id, s.jobs[id], s.sequence);
    RetryReachesRetryable(s, id, reason);
    var t := RetryOutcome(s, id, reason).0;
    if |d[partial]| < TWO_TO_63 {
      ProgressUpdate(t, id, |d[partial]|);
    }
  }

  lemma ProgressUpdate(s: Store, id: string, p: int64)
    requires id in s.jobs
    ensures var (t, r) := Apply(s, id, UpdateProgress(p));
      if !s.jobs[id].status.IsTerminal() && 0 <= p <= s.jobs[id].fileSizeBytes then
        r.Ok? && id in t.jobs && t.jobs[id] == s.jobs[id].(progressBytes := p)
      else r.Err? && t == s
  {
    hide FillEvent, Draft;
  }

  // From there the next attempt's own checks pass: it resumes at exactly that
  // point, or starts over when there is nothing.
  lemma NextAttemptAccepts(s: Store, id: string, d: Disk, partial: string, reported: int, r: RxConfig)
    requires InStep(s, id, d, partial, reported) && Valid(s)
    requires r.transferID == s.jobs[id].transferID != ""
    ensures var job := s.jobs[id];
      var resume := LiveReceiverResume(Some(d[partial]), job, r.digest);
      && resume.Ok?
      && (resume.value.Some? <==> reported > 0)
      && (resume.value.Some? ==> resume.value.value.nextOffset == reported)
      && ReceiverAt(r, Some(d[partial]), resume.value).Ok?
      && Starting(ReceiverAt(r, Some(d[partial]), resume.value).value)
      && ReceiverAt(r, Some(d[partial]), resume.value).value.hashed == d[partial]
  {
    hide SequenceForOffset, GoodLog;
    assert GoodJob(id, s.jobs[id], s.sequence);
    assert d[partial][..|d[partial]|] == d[partial];
  }

  // ---- The attempt as it runs ----

  datatype LiveScript = LiveScript(events: seq<LiveEvent>, openFails: bool, statFails: bool, truncateFails: bool,
                                   clearFails: bool, closeFails: bool, commit: CommitFaults, dropFails: bool)

  // How the attempt ends.
  datatype LiveExit = Finished(manifest: Manifest) | Retried | Broken

  predicate SameJob(a: Job, b: Job) {
    a.id == b.id && a.transferID == b.transferID && a.direction == b.direction
    && a.fileSizeBytes == b.fileSizeBytes && a.destinationPath == b.destinationPath
  }

  // The store still holds this job under this transfer.
  ghost predicate Holds(s: Store, job: Job) {
    Valid(s) && job.id in s.jobs && SameJob(s.jobs[job.id], job)
  }

  lemma OpKeepsJob(s: Store, job: Job, op: JobOp)
    requires Holds(s, job) && (OutsideOp(op) || op.UpdateProgress? || op.Complete?)
    ensures Holds(Apply(s, job.id, op).0, job)
  {
    hide FillEvent, Draft, Valid;
    ApplyKeepsValid(s, job.id, op);
  }

  lemma {:induction false} OpsKeepJob(s: Store, job: Job, ops: seq<JobOp>)
    requires Holds(s, job) && forall op :: op in ops ==> OutsideOp(op) || op.Complete?
    ensures Holds(RunOps(s, job.id, ops).0, job)
    decreases |ops|
  {
    hide Apply, Holds, OutsideOp;
    if ops != [] {
      assert ops[0] in ops;
      OpKeepsJob(s, job, ops[0]);
      if Apply(s, job.id, ops[0]).1.Ok? { OpsKeepJob(Apply(s, job.id, ops[0]).0, job, ops[1..]); }
    }
  }

  lemma FoundIsHeld(s: Store, job: Job)
    requires Holds(s, job) && job.transferID != ""
    ensures FindByTransferID(s, job.transferID) == Some(s.jobs[job.id])
  {
    FindIsOrderIndependent(s, job.transferID, job.id, job.id);
  }

  // The store once the job has failed, unless it had ended before.
  function FailedIn(s: Store, id: string): Store {
    if id in s.jobs && s.jobs[id].status.IsTerminal() then s else Apply(s, id, Fail("transfer failed")).0
  }

  lemma FailedInMeans(s: Store, id: string)
    requires id in s.jobs
    ensures var t := FailedIn(s, id);
      && id in t.jobs
      && t.jobs[id] == (if s.jobs[id].status.IsTerminal() then s.jobs[id]
                        else s.jobs[id].(status := JobStatus.Failed, failureReason := "transfer failed"))
  {
    hide FillEvent, Draft;
  }

  // failTransferJob, and the message that tells the peer.
  method FailAndTell(m: JobManager, out: Outbox, job: Job)
    requires Holds(m.State(), job) && job.transferID != ""
    modifies m, out
    ensures Holds(m.State(), job) && m.State() == FailedIn(old(m.State()), job.id)
    ensures out.sent == old(out.sent) + [FailedSignal]
  {
    hide Apply, Valid;
    var current := FindJob(m, job.transferID);
    FoundIsHeld(m.State(), job);
    if current.Some? && !current.value.status.IsTerminal() {
      OpKeepsJob(m.State(), job, Fail("transfer failed"));
      var r := m.Do(current.value.id, Fail("transfer failed"));
    }
    out.Send(FailedSignal);
  }

  // The receiver's OnProgress callback: reports are suppressed while the job is
  // neither connecting nor transferring, and a refused update is ignored.
  method OnProgress(m: JobManager, out: Outbox, job: Job, bytes: int64)
    requires Holds(m.State(), job) && job.transferID != ""
    modifies m, out
    ensures Holds(m.State(), job) && job.id in old(m.jobs)
    ensures if old(m.jobs)[job.id].status.Connecting? || old(m.jobs)[job.id].status.Transferring? then
        && m.State() == Apply(old(m.State()), job.id, UpdateProgress(bytes)).0
        && out.sent == old(out.sent) + [ProgressSignal(bytes)]
      else m.State() == old(m.State()) && out.sent == old(out.sent)
  {
    hide Apply, Valid;
    var current := FindJob(m, job.transferID);
    FoundIsHeld(m.State(), job);
    if current.Some? && !current.value.status.Connecting? && !current.value.status.Transferring? { return; }
    OpKeepsJob(m.State(), job, UpdateProgress(bytes));
    var r := m.Do(job.id, UpdateProgress(bytes));
    out.Send(ProgressSignal(bytes));
  }

  // The closure `retryable`.
  method LeaveRetryably(m: JobManager, fs: FileStore, out: Outbox, job: Job, partial: string, reason: string,
                        statFails: bool, truncateFails: bool)
    returns (exit: LiveExit)
    requires Holds(m.State(), job) && job.transferID != "" && job.direction.Receive?
    requires partial in fs.files && reason != ""
    modifies m, fs, out
    ensures Holds(m.State(), job) && partial in fs.files
    ensures fs.files - {partial} == old(fs.files) - {partial} && fs.files[partial] <= old(fs.files)[partial]
    ensures !exit.Finished? && |out.sent| == |old(out.sent)| + 1 && out.sent[..|old(out.sent)|] == old(out.sent)
    ensures out.sent[|old(out.sent)|] != CompletedSignal
    ensures job.id in old(m.jobs)
    ensures var size, progress := |old(fs.files)[partial]|, old(m.jobs)[job.id].progressBytes;
      && (exit.Retried? <==> !statFails && (size > progress ==> !truncateFails))
      && (exit.Retried? ==>
            && m.State() == SettleStore(old(m.State()), job.id, reason, size)
            && fs.files == SettleDisk(old(fs.files), partial, progress)
            && out.sent[|old(out.sent)|] == RetryableSignal(if size < progress then size else progress))
      && (!exit.Retried? ==>
            && m.State() == FailedIn(RetryOutcome(old(m.State()), job.id, reason).0, job.id)
            && fs.files == old(fs.files) && out.sent[|old(out.sent)|] == FailedSignal)
    ensures exit.Retried? ==>
      && (!m.jobs[job.id].status.IsTerminal() ==>
            InStep(m.State(), job.id, fs.files, partial, out.sent[|old(out.sent)|].bytes))
  {
    hide RetryOutcome, Valid;
    ghost var s := m.State();
    ghost var d := fs.files;
    NotQueued(s, job);
    SettlingPutsInStep(s, job.id, d, partial, reason);
    var current := FindJob(m, job.transferID);
    FoundIsHeld(m.State(), job);
    var progress := if current.Some? then current.value.progressBytes else job.progressBytes;
    var retried := MarkJobRetryableIfMutable(m, job.id, reason);
    RetryKeepsJob(s, job, reason);
    if statFails {
      FailAndTell(m, out, job);
      return Broken;
    }
    var size := |fs.files[partial]|;
    if size < progress {
      progress := size;
      OpKeepsJob(m.State(), job, UpdateProgress(progress));
      var updated := m.Do(job.id, UpdateProgress(progress));
    } else if size > progress {
      if truncateFails {
        FailAndTell(m, out, job);
        return Broken;
      }
      fs.Truncate(partial, progress);
    }
    out.Send(RetryableSignal(progress));
    return Retried;
  }

  lemma NotQueued(s: Store, job: Job)
    requires Holds(s, job) && job.direction.Receive?
    ensures !s.jobs[job.id].status.Queued?
    ensures 0 <= s.jobs[job.id].progressBytes <= s.jobs[job.id].fileSizeBytes
  {
    hide GoodLog;
    assert GoodJob(job.id, s.jobs[job.id], s.sequence);
  }

  lemma RetryKeepsJob(s: Store, job: Job, reason: string)
    requires Holds(s, job)
    ensures Holds(RetryOutcome(s, job.id, reason).0, job)
  {
    hide RunOps, Holds;
    assert job.id in s.jobs by { HeldIsThere(s, job); }
    if RetryPlan(s.jobs[job.id].status, reason).Perform? {
      OpsKeepJob(s, job, RetryPlan(s.jobs[job.id].status, reason).ops);
    }
  }

  lemma HeldIsThere(s: Store, job: Job)
    requires Holds(s, job)
    ensures job.id in s.jobs
  {
  }

  // prepareLiveReceiverPartial: resume from the partial, or clear it away,
  // which can fail.
  method PreparePartial(fs: FileStore, partial: string, job: Job, digest: Hash, clearFails: bool)
    returns (r: Result<Option<ResumeManifest>, P2PError>)
    modifies fs
    ensures var point := LiveReceiverResume(PartOf(old(fs.files), partial), job, digest);
      if point.Err? || point.value.Some? then r == point && fs.files == old(fs.files)
      else if clearFails && partial in old(fs.files) then r == Err(TransferFailed) && fs.files == old(fs.files)
      else r == Ok(None) && fs.files == old(fs.files) - {partial}
  {
    r := LiveReceiverResume(if partial in fs.files then Some(fs.files[partial]) else None, job, digest);
    if r.Ok? && r.value.None? {
      if clearFails && partial in fs.files { return Err(TransferFailed); }
      fs.Remove(partial);
    }
  }

  function PartOf(d: Disk, path: string): Option<Bytes> { if path in d then Some(d[path]) else None }

  // Only the destination is new, and only its partial may have changed.
  predicate OthersUntouched(before: Disk, after: Disk, partial: string, destination: string) {
    after - {partial, destination} == before - {partial, destination}
    && (destination in before ==> destination in after && after[destination] == before[destination])
  }

  // The messages added since `before` do not announce completion.
  predicate Unannounced(before: seq<Signal>, after: seq<Signal>) {
    |before| <= |after| && after[..|before|] == before
    && forall k :: |before| <= k < |after| ==> after[k] != CompletedSignal
  }

  // The attempt in its loop: the receiver has played its run, and the partial
  // file is the prefix it started from plus what it has written.
  ghost predicate InLoop(c: RxConfig, rx0: RxState, run: seq<Delivery>, s: RxState, d: Disk, partial: string) {
    && Starting(rx0) && s == Play(c, rx0, run).state
    && !s.failed && !s.complete
    && partial in d && d[partial] == rx0.hashed + s.written == s.hashed
  }

  lemma DeliveryKeepsLoop(c: RxConfig, rx0: RxState, run: seq<Delivery>, s: RxState, d: Disk, partial: string, e: Delivery)
    requires InLoop(c, rx0, run, s, d, partial)
    ensures var (t, r) := AcceptStep(c, s, e.message, e.io);
      && t == Play(c, rx0, run + [e]).state
      && s.written <= t.written
      && (r == Ok(None) ==>
            InLoop(c, rx0, run + [e], t, d[partial := d[partial] + t.written[|s.written|..]], partial))
      && (r.Ok? && r.value.Some? ==>
            && t == s.(complete := true)
            && r.value.value.totalBytes == WrapInt64(|s.hashed|)
            && r.value.value.sha256Hex == c.digest(s.hashed))
  {
    hide AcceptStep, WrapInt64, WrapUint64;
    assert (run + [e])[..|run|] == run;
    LatchInvariant(c, rx0, run);
    AcceptEffect(c, s, e.message, e.io);
    ManifestEffect(c, s, e.message, e.io);
    var (t, r) := AcceptStep(c, s, e.message, e.io);
    if r == Ok(None) {
      var p := ChunkPlaintext(c, e.message.frame).value;
      assert t.written[|s.written|..] == p;
      assert rx0.hashed + t.written == (rx0.hashed + s.written) + p;
    }
  }

  lemma InLoopMeans(c: RxConfig, rx0: RxState, run: seq<Delivery>, s: RxState, d: Disk, partial: string)
    requires InLoop(c, rx0, run, s, d, partial)
    ensures partial in d && d[partial] == s.hashed && s == Play(c, rx0, run).state
  {
  }

  lemma StartOfLoop(c: RxConfig, rx0: RxState, d: Disk, partial: string)
    requires Starting(rx0) && partial in d && d[partial] == rx0.hashed
    ensures InLoop(c, rx0, [], rx0, d, partial)
  {
    assert rx0.hashed + [] == rx0.hashed;
  }

  lemma ResumedHasPart(part: Option<Bytes>, job: Job, digest: Hash)
    requires LiveReceiverResume(part, job, digest).Ok? && LiveReceiverResume(part, job, digest).value.Some?
    ensures part.Some? && LiveReceiverResume(part, job, digest).value.value.nextOffset == |part.value|
  {
    hide SequenceForOffset;
  }

  lemma CompleteKeepsJob(s: Store, job: Job)
    requires Holds(s, job)
    ensures var (t, e) := CompleteOutcome(s, job.id);
      job.id in t.jobs && (Valid(t) ==> Holds(t, job)) && (e == None ==> t.jobs[job.id].status.Completed?)
  {
    hide CompleteOutcome, Valid;
    CompleteReachesCompleted(s, job.id);
  }

  // A store, a disk and what has been said.
  datatype Scene = Scene(store: Store, disk: Disk, sent: seq<Signal>)

  ghost function SceneNow(m: JobManager, fs: FileStore, out: Outbox): Scene
    reads m, fs, out
  {
    Scene(m.State(), fs.files, out.sent)
  }

  // How an attempt that has accepted this manifest ends.
  ghost predicate Closes(a: Scene, b: Scene, job: Job, digest: Hash, manifest: Manifest, keep: bool, script: LiveScript, exit: LiveExit)
    requires job.id in a.store.jobs
  {
    var partial := PartialPath(job.destinationPath);
    var (committed, e) := CommitOutcome(a.disk, partial, job.destinationPath, manifest, digest, script.commit);
    if manifest.totalBytes != job.fileSizeBytes then
      && exit.Broken?
      && b == Scene(FailedIn(a.store, job.id), WithoutPartial(a.disk, partial, keep, script), a.sent + [FailedSignal])
    else if a.store.jobs[job.id].status.IsTerminal() || script.closeFails then
      exit.Broken? && b == Scene(a.store, WithoutPartial(a.disk, partial, keep, script), a.sent)
    else if e.Some? then
      && exit.Broken?
      && b == Scene(FailedIn(a.store, job.id), WithoutPartial(committed, partial, keep, script), a.sent + [FailedSignal])
    else
      var (s, f) := CompleteOutcome(a.store, job.id);
      && b == Scene(s, committed, if f.None? then a.sent + [CompletedSignal] else a.sent)
      && exit == if f.None? then Finished(manifest) else Broken
  }

  // It finishes if and only if the manifest is of the declared size, the job can
  // still be completed, the partial file closes and the commit succeeds; what is
  // announced is completion then, and failure when the size or the commit fails.
  lemma ClosesExactly(a: Scene, b: Scene, job: Job, digest: Hash, manifest: Manifest, keep: bool, script: LiveScript, exit: LiveExit)
    requires job.id in a.store.jobs && a.store.jobs[job.id].direction.Receive?
    requires Closes(a, b, job, digest, manifest, keep, script, exit)
    ensures var status := a.store.jobs[job.id].status;
      var sized := manifest.totalBytes == job.fileSizeBytes;
      var ended := status.IsTerminal() || script.closeFails;
      var commit := CommitOutcome(a.disk, PartialPath(job.destinationPath), job.destinationPath, manifest, digest, script.commit).1;
      && (exit.Finished? <==> sized && !ended && commit.None? && StartPlan(status).Perform?)
      && (exit.Finished? ==> exit.manifest == manifest && b.sent == a.sent + [CompletedSignal])
      && (!exit.Finished? ==>
            && exit.Broken?
            && b.sent == a.sent + (if !sized || (!ended && commit.Some?) then [FailedSignal] else [])
            && job.id in b.store.jobs
            && (!sized || (!ended && commit.Some?) ==> b.store.jobs[job.id].status == (if status.IsTerminal() then status else JobStatus.Failed))
            // a partial file that this attempt created goes again, if it can
            && (!sized || ended ==> b.disk == if keep || script.dropFails then a.disk else a.disk - {PartialPath(job.destinationPath)}))
  {
    hide CommitOutcome, CompleteOutcome, FailedIn, PartialPath;
    CompleteReachesCompleted(a.store, job.id);
    FailedInMeans(a.store, job.id);
    CompletionKeepsIt(a.store, job.id);
  }

  lemma CompletionKeepsIt(s: Store, id: string)
    requires id in s.jobs
    ensures id in CompleteOutcome(s, id).0.jobs
  {
    hide CompleteOutcome;
    CompleteReachesCompleted(s, id);
  }

  // The deferred removal of a partial file that the attempt has created.
  function WithoutPartial(d: Disk, partial: string, keep: bool, script: LiveScript): Disk {
    if !keep && !script.dropFails then d - {partial} else d
  }

  // What follows an accepted manifest: the size check, the check that the job
  // is still live, the commit, and only then completion and its announcement.
  method FinishTransfer(m: JobManager, fs: FileStore, out: Outbox, job: Job, partial: string, digest: Hash,
                        manifest: Manifest, keep: bool, script: LiveScript)
    returns (exit: LiveExit)
    requires Holds(m.State(), job) && job.transferID != ""
    requires partial == PartialPath(job.destinationPath)
    requires partial in fs.files && job.destinationPath !in fs.files
    modifies m, fs, out
    ensures Holds(m.State(), job) && !exit.Retried?
    ensures OthersUntouched(old(fs.files), fs.files, partial, job.destinationPath)
    ensures !exit.Finished? ==> Unannounced(old(out.sent), out.sent)
    ensures job.id in old(m.jobs)
    ensures Closes(old(SceneNow(m, fs, out)), SceneNow(m, fs, out), job, digest, manifest, keep, script, exit)
    ensures exit.Finished? ==>
      && exit.manifest == manifest
      && job.destinationPath in fs.files && fs.files[job.destinationPath] == old(fs.files)[partial]
      && |fs.files[job.destinationPath]| == job.fileSizeBytes == manifest.totalBytes
      && digest(fs.files[job.destinationPath]) == manifest.sha256Hex
      && (partial in fs.files <==> script.commit.drop.Skipped?)
      && m.jobs[job.id].status.Completed?
      && out.sent == old(out.sent) + [CompletedSignal]
  {
    hide Valid, Holds, CommitOutcome, CompleteOutcome, Describes, FindByTransferID, FailedIn, PartialPath;
    HeldIsValid(m.State(), job);
    PathsApart(job.destinationPath);
    if manifest.totalBytes != job.fileSizeBytes {
      FailAndTell(m, out, job);
      if !keep && !script.dropFails { fs.Remove(partial); }
      return Broken;
    }
    FoundIsHeld(m.State(), job);
    var current := FindJob(m, job.transferID);
    if current.None? || current.value.status.IsTerminal() || script.closeFails {
      if !keep && !script.dropFails { fs.Remove(partial); }
      return Broken;
    }
    CommitNeverReplaces(fs.files, partial, job.destinationPath, manifest, digest, script.commit);
    ghost var before := fs.files;
    var e := fs.CommitDestinationNoReplace(partial, job.destinationPath, manifest, digest, script.commit);
    if e.Some? {
      FailAndTell(m, out, job);
      if !keep && !script.dropFails { fs.Remove(partial); }
      return Broken;
    }
    CompleteKeepsJob(m.State(), job);
    FoundIsHeld(m.State(), job);
    var refused := CompleteTransferJob(m, job.transferID);
    if refused.Some? { return Broken; }
    out.Send(CompletedSignal);
    return Finished(manifest);
  }

  lemma TakesUp(c: RxConfig, part: Bytes, job: Job)
    requires var resume := LiveReceiverResume(Some(part), job, c.digest);
             resume.Ok? && resume.value.Some? && ResumeReceiver(c, part, false, resume.value.value).Ok?
    ensures var s := ResumeReceiver(c, part, false, LiveReceiverResume(Some(part), job, c.digest).value.value).value;
      Starting(s) && s.hashed == part != []
  {
    hide SequenceForOffset;
    assert part[..|part|] == part;
  }

  lemma PathsApart(destination: string)
    ensures PartialPath(destination) != destination
  {
    assert |PartialPath(destination)| > |destination|;
  }

  lemma HeldIsValid(s: Store, job: Job)
    requires Holds(s, job)
    ensures Valid(s) && job.id in s.jobs && SameJob(s.jobs[job.id], job)
  {
  }

  lemma UntouchedSoFar(before: Disk, mid: Disk, after: Disk, partial: string, destination: string)
    requires mid - {partial} == before - {partial} && destination !in mid
    requires OthersUntouched(mid, after, partial, destination) && partial != destination
    ensures OthersUntouched(before, after, partial, destination) && destination !in before
  {
    assert before - {partial, destination} == before - {partial} - {destination};
    assert mid - {partial, destination} == mid - {partial} - {destination};
    assert destination in before ==> destination in before - {partial};
  }

  lemma OnlyPartialTouched(before: Disk, after: Disk, partial: string, destination: string)
    requires after - {partial} == before - {partial} && partial != destination
    ensures OthersUntouched(before, after, partial, destination)
    ensures destination in before <==> destination in after
  {
    assert before - {partial, destination} == before - {partial} - {destination};
    assert after - {partial, destination} == after - {partial} - {destination};
    assert destination in before <==> destination in before - {partial};
    assert destination in after <==> destination in after - {partial};
    assert destination in before ==> before[destination] == (before - {partial})[destination];
    assert destination in after ==> after[destination] == (after - {partial})[destination];
  }

  lemma StillUnannounced(a: seq<Signal>, b: seq<Signal>, after: seq<Signal>)
    requires Unannounced(a, b) && Unannounced(b, after)
    ensures Unannounced(a, after)
  {
    assert after[..|a|] == after[..|b|][..|a|];
    forall k | |a| <= k < |after| ensures after[k] != CompletedSignal {
      if k < |b| { assert after[k] == after[..|b|][k]; }
    }
  }

  lemma OneMore(a: seq<Signal>, after: seq<Signal>)
    requires |after| == |a| + 1 && after[..|a|] == a && after[|a|] != CompletedSignal
    ensures Unannounced(a, after)
  {
  }

  lemma ConcludeFinished(s: Store, d: Disk, told: seq<Signal>, said: seq<Signal>, sent: seq<Signal>, job: Job,
                         c: RxConfig, rx: RxState, m: Manifest, kept: bool)
    requires job.destinationPath in d && (PartialPath(job.destinationPath) in d <==> kept)
    requires d[job.destinationPath] == rx.hashed
    requires |d[job.destinationPath]| == job.fileSizeBytes == m.totalBytes
    requires c.digest(d[job.destinationPath]) == m.sha256Hex
    requires job.id in s.jobs && s.jobs[job.id].status.Completed?
    requires sent == said + [CompletedSignal] && Unannounced(told, said)
    ensures LeftFinished(s, d, told, sent, job, c, rx, m, kept)
  {
    assert sent[..|sent| - 1] == said;
  }

  // Anything refused fails the job, tells the peer, and drops a partial file
  // that this attempt created.
  method GiveUp(m: JobManager, fs: FileStore, out: Outbox, job: Job, keep: bool, script: LiveScript,
                ghost disk: Disk, ghost told: seq<Signal>)
    requires Holds(m.State(), job) && job.transferID != "" && Unannounced(told, out.sent)
    requires fs.files - {PartialPath(job.destinationPath)} == disk - {PartialPath(job.destinationPath)}
    modifies m, fs, out
    ensures Holds(m.State(), job) && Unannounced(told, out.sent)
    ensures OthersUntouched(disk, fs.files, PartialPath(job.destinationPath), job.destinationPath)
    ensures SceneNow(m, fs, out) == Scene(FailedIn(old(m.State()), job.id),
                                          WithoutPartial(old(fs.files), PartialPath(job.destinationPath), keep, script),
                                          old(out.sent) + [FailedSignal])
  {
    hide Valid, Holds, OthersUntouched, Unannounced, FailedIn;
    ghost var said := out.sent;
    FailAndTell(m, out, job);
    if !keep && !script.dropFails { fs.Remove(PartialPath(job.destinationPath)); }
    OnlyPartialTouched(disk, fs.files, PartialPath(job.destinationPath), job.destinationPath);
    OneMore(said, out.sent);
    StillUnannounced(told, said, out.sent);
  }

  // An accepted manifest ends the attempt, one way or the other.
  method CloseTransfer(m: JobManager, fs: FileStore, out: Outbox, job: Job, c: RxConfig, manifest: Manifest, keep: bool,
                       script: LiveScript, ghost rx: RxState, ghost disk: Disk, ghost told: seq<Signal>)
    returns (exit: LiveExit)
    requires Holds(m.State(), job) && job.transferID != "" && Unannounced(told, out.sent)
    requires PartialPath(job.destinationPath) in fs.files && job.destinationPath !in fs.files
    requires fs.files[PartialPath(job.destinationPath)] == rx.hashed
    requires fs.files - {PartialPath(job.destinationPath)} == disk - {PartialPath(job.destinationPath)}
    modifies m, fs, out
    ensures Holds(m.State(), job) && !exit.Retried?
    ensures OthersUntouched(disk, fs.files, PartialPath(job.destinationPath), job.destinationPath)
    ensures !exit.Finished? ==> Unannounced(told, out.sent)
    ensures exit.Finished? ==> LeftFinished(m.State(), fs.files, told, out.sent, job, c, rx, exit.manifest, script.commit.drop.Skipped?)
    ensures job.id in old(m.jobs)
    ensures Closes(old(SceneNow(m, fs, out)), SceneNow(m, fs, out), job, c.digest, manifest, keep, script, exit)
  {
    hide Valid, Holds, OthersUntouched, Unannounced, LeftFinished, Closes;
    ghost var said := out.sent;
    ghost var sofar := fs.files;
    var partial := PartialPath(job.destinationPath);
    exit := FinishTransfer(m, fs, out, job, partial, c.digest, manifest, keep, script);
    UntouchedSoFar(disk, sofar, fs.files, partial, job.destinationPath);
    if exit.Finished? {
      HeldIsThere(m.State(), job);
      ConcludeFinished(m.State(), fs.files, told, said, out.sent, job, c, rx, exit.manifest, script.commit.drop.Skipped?);
    } else {
      StillUnannounced(told, said, out.sent);
    }
  }

  // How an attempt ends on a message that stops it: one refused fails the job,
  // and what the refused write has taken stays in the partial file.
  ghost predicate StopsOn(a: Scene, b: Scene, job: Job, c: RxConfig, rx: RxState, message: Wire, io: WriteReply, keep: bool,
                          script: LiveScript, exit: LiveExit)
    requires job.id in a.store.jobs
  {
    var (t, r) := AcceptStep(c, rx, message, io);
    var partial := PartialPath(job.destinationPath);
    match r
    case Err(_) =>
      && exit.Broken? && partial in a.disk && rx.written <= t.written
      && b == Scene(FailedIn(a.store, job.id),
                    WithoutPartial(a.disk[partial := a.disk[partial] + t.written[|rx.written|..]], partial, keep, script),
                    a.sent + [FailedSignal])
    case Ok(None) => false
    case Ok(Some(m)) => Closes(a, b, job, c.digest, m, keep, script, exit)
  }

  lemma StopsMeans(c: RxConfig, x: Live, message: Wire, io: WriteReply)
    ensures Stops(c, x, Arrives(message, io)) <==> AcceptStep(c, x.rx, message, io).1 != Ok(None)
  {
    hide AcceptStep;
  }

  lemma StopsOnManifest(a: Scene, b: Scene, job: Job, c: RxConfig, rx: RxState, message: Wire, io: WriteReply, keep: bool,
                        script: LiveScript, exit: LiveExit)
    requires job.id in a.store.jobs
    requires var r := AcceptStep(c, rx, message, io).1;
             r.Ok? && r.value.Some? && Closes(a, b, job, c.digest, r.value.value, keep, script, exit)
    ensures StopsOn(a, b, job, c, rx, message, io, keep, script, exit)
  {
    hide AcceptStep, Closes;
  }

  lemma StopsOnRefusal(a: Scene, b: Scene, job: Job, c: RxConfig, rx: RxState, message: Wire, io: WriteReply, keep: bool,
                       script: LiveScript, exit: LiveExit)
    requires job.id in a.store.jobs && PartialPath(job.destinationPath) in a.disk
    requires var (t, r) := AcceptStep(c, rx, message, io);
             var partial := PartialPath(job.destinationPath);
             && r.Err? && exit.Broken? && rx.written <= t.written
             && b == Scene(FailedIn(a.store, job.id),
                           WithoutPartial(a.disk[partial := a.disk[partial] + t.written[|rx.written|..]], partial, keep, script),
                           a.sent + [FailedSignal])
    ensures StopsOn(a, b, job, c, rx, message, io, keep, script, exit)
  {
    hide AcceptStep, Closes, FailedIn, PartialPath, WithoutPartial;
  }

  // After a refused message the partial file is there exactly if the attempt had
  // resumed from it, or it cannot be removed; then it holds what was taken, what
  // the refused write has taken included.
  lemma RefusedKeepsPartial(a: Scene, b: Scene, job: Job, c: RxConfig, rx: RxState, message: Wire, io: WriteReply, keep: bool,
                            script: LiveScript, exit: LiveExit)
    requires job.id in a.store.jobs && StopsOn(a, b, job, c, rx, message, io, keep, script, exit)
    requires AcceptStep(c, rx, message, io).1.Err?
    ensures var partial := job.destinationPath + ".part";
      && (partial in b.disk <==> keep || script.dropFails)
      && (partial in b.disk ==> b.disk[partial] == a.disk[partial] + AcceptStep(c, rx, message, io).0.written[|rx.written|..])
      && b.disk - {partial} == a.disk - {partial}
      && exit.Broken? && b.sent == a.sent + [FailedSignal]
      && job.id in b.store.jobs && b.store.jobs[job.id].status.IsTerminal()
  {
    hide AcceptStep, FailedIn, CommitOutcome, CompleteOutcome;
    FailedInMeans(a.store, job.id);
  }

  // One message: a chunk goes to the partial file and is reported, a manifest
  // finishes the transfer, anything refused fails it.
  method OnMessage(m: JobManager, fs: FileStore, out: Outbox, job: Job, c: RxConfig, script: LiveScript,
                   receiver: Receiver, keep: bool, message: Wire, io: WriteReply,
                   ghost rx0: RxState, ghost run: seq<Delivery>, ghost disk: Disk, ghost told: seq<Signal>)
    returns (done: bool, exit: LiveExit)
    requires Holds(m.State(), job) && job.transferID != "" && Unannounced(told, out.sent)
    requires receiver.Config() == c
    requires InLoop(c, rx0, run, receiver.State(), fs.files, PartialPath(job.destinationPath))
    requires PartialPath(job.destinationPath) in fs.files && job.destinationPath !in fs.files
    requires fs.files - {PartialPath(job.destinationPath)} == disk - {PartialPath(job.destinationPath)}
    modifies m, fs, out, receiver
    ensures Holds(m.State(), job)
    ensures !done ==>
      && InLoop(c, rx0, run + [Delivery(message, io)], receiver.State(), fs.files, PartialPath(job.destinationPath))
      && PartialPath(job.destinationPath) in fs.files && job.destinationPath !in fs.files
      && fs.files - {PartialPath(job.destinationPath)} == disk - {PartialPath(job.destinationPath)}
      && Unannounced(told, out.sent)
    ensures done ==> OthersUntouched(disk, fs.files, PartialPath(job.destinationPath), job.destinationPath) && !exit.Retried?
    ensures done && !exit.Finished? ==> Unannounced(told, out.sent)
    ensures done && exit.Finished? ==>
      LeftFinished(m.State(), fs.files, told, out.sent, job, c, Play(c, rx0, run + [Delivery(message, io)]).state, exit.manifest, script.commit.drop.Skipped?)
    ensures job.id in old(m.jobs)
    ensures var x := Live(old(m.State()), old(receiver.State()), old(out.sent));
      && (done <==> Stops(c, x, Arrives(message, io)))
      && (!done ==> Live(m.State(), receiver.State(), out.sent) == LiveStep(c, job.id, x, Arrives(message, io)))
      && (done ==> StopsOn(old(SceneNow(m, fs, out)), SceneNow(m, fs, out), job, c, x.rx, message, io, keep, script, exit))
  {
    hide Valid, Holds, Play, AcceptStep, InLoop, OthersUntouched, Unannounced, LeftFinished, Apply, PartialPath, Closes, FailedIn, WithoutPartial,
         LiveStep, StopsOn, Stops;
    ghost var a, x := SceneNow(m, fs, out), Live(m.State(), receiver.State(), out.sent);
    StopsMeans(c, x, message, io);
    ghost var said := out.sent;
    HeldIsThere(m.State(), job);
    var partial := PartialPath(job.destinationPath);
    DeliveryKeepsLoop(c, rx0, run, receiver.State(), fs.files, partial, Delivery(message, io));
    InLoopMeans(c, rx0, run, receiver.State(), fs.files, partial);
    var before := receiver.written;
    var r := receiver.Accept(message, io);
    done, exit := true, Broken;
    if r.Ok? && r.value.Some? {
      exit := CloseTransfer(m, fs, out, job, c, r.value.value, keep, script, receiver.State(), disk, told);
      StopsOnManifest(a, SceneNow(m, fs, out), job, c, x.rx, message, io, keep, script, exit);
      return;
    }
    fs.Append(partial, receiver.written[|before|..]);
    if r.Err? {
      GiveUp(m, fs, out, job, keep, script, disk, told);
      StopsOnRefusal(a, SceneNow(m, fs, out), job, c, x.rx, message, io, keep, script, exit);
      return;
    }
    AcceptedStep(c, job.id, x, message, io);
    OnProgress(m, out, job, receiver.offset);
    if out.sent != said {
      OneMore(said, out.sent);
      StillUnannounced(told, said, out.sent);
    }
    done := false;
  }

  function Why(events: seq<LiveEvent>, n: nat): string {
    if n < |events| && events[n].PeerGone? then "transfer failed: " + events[n].reason else "transfer failed: context canceled"
  }

  // How the loop ends, at its n-th event or when there are no more. Up to there
  // the partial file holds what has been accepted.
  ghost predicate EndsAt(a: Scene, b: Scene, job: Job, c: RxConfig, rx0: RxState, script: LiveScript, keep: bool, n: nat,
                         run: seq<Delivery>, exit: LiveExit) {
    var x0 := Live(a.store, rx0, a.sent);
    && n <= |script.events| && Lasts(c, job.id, x0, script.events[..n])
    && var x := LiveAt(c, job.id, x0, script.events[..n]);
       var now := Scene(x.store, a.disk[PartialPath(job.destinationPath) := x.rx.hashed], x.sent);
       && job.id in x.store.jobs
       && (n < |script.events| ==> Stops(c, x, script.events[n]))
       && if n < |script.events| && script.events[n].Arrives? then
            && run == RunOf(script.events[..n + 1])
            && StopsOn(now, b, job, c, x.rx, script.events[n].message, script.events[n].io, keep, script, exit)
          else
            run == RunOf(script.events[..n]) && LeavesRetryably(now, b, job, Why(script.events, n), script, exit)
  }

  // The receive loop. An exhausted script is a cancelled context.
  method ReceiveLoop(m: JobManager, fs: FileStore, out: Outbox, job: Job, c: RxConfig, script: LiveScript,
                     receiver: Receiver, keep: bool)
    returns (exit: LiveExit, ghost run: seq<Delivery>, ghost n: nat)
    requires Holds(m.State(), job) && job.transferID != "" && job.direction.Receive?
    requires forall e :: e in script.events ==> e.JobMoves? ==> OutsideOp(e.op)
    requires receiver.Config() == c
    requires InLoop(c, receiver.State(), [], receiver.State(), fs.files, PartialPath(job.destinationPath))
    requires job.destinationPath !in fs.files
    modifies m, fs, out, receiver
    ensures Holds(m.State(), job)
    ensures OthersUntouched(old(fs.files), fs.files, PartialPath(job.destinationPath), job.destinationPath)
    ensures !exit.Finished? ==> Unannounced(old(out.sent), out.sent)
    ensures exit.Retried? ==> LeftInStep(m.State(), fs.files, out.sent, job, Play(c, old(receiver.State()), run).state)
    ensures exit.Finished? ==>
      LeftFinished(m.State(), fs.files, old(out.sent), out.sent, job, c, Play(c, old(receiver.State()), run).state, exit.manifest, script.commit.drop.Skipped?)
    ensures EndsAt(old(SceneNow(m, fs, out)), SceneNow(m, fs, out), job, c, old(receiver.State()), script, keep, n, run, exit)
  {
    hide Valid, Holds, Play, AcceptStep, InLoop, Apply, OutsideOp, OthersUntouched, Unannounced, LeftFinished, LeftInStep,
         Stops, LiveStep, LiveAt, Lasts, RunOf, StopsOn, LeavesRetryably;
    ghost var rx0 := receiver.State();
    ghost var told := out.sent;
    ghost var disk := fs.files;
    var partial := PartialPath(job.destinationPath);
    ghost var a, x0 := SceneNow(m, fs, out), Live(m.State(), rx0, out.sent);
    run, n := [], 0;
    var i := 0;
    InLoopMeans(c, rx0, run, rx0, fs.files, partial);
    NothingLived(c, job.id, x0, script.events);
    assert Unannounced(told, out.sent) by { NothingSaid(told); }
    while i < |script.events|
      invariant 0 <= i <= |script.events|
      invariant Holds(m.State(), job) && Unannounced(told, out.sent)
      invariant InLoop(c, rx0, run, receiver.State(), fs.files, partial) && receiver.Config() == c
      invariant partial in fs.files && job.destinationPath !in fs.files
      invariant fs.files - {partial} == disk - {partial}
      invariant Live(m.State(), receiver.State(), out.sent) == LiveAt(c, job.id, x0, script.events[..i])
      invariant Lasts(c, job.id, x0, script.events[..i]) && run == RunOf(script.events[..i])
    {
      var event := script.events[i];
      n := i;
      ghost var x := Live(m.State(), receiver.State(), out.sent);
      HeldIsThere(m.State(), job);
      PartialHolds(c, rx0, run, x.rx, disk, fs.files, partial);
      OneMoreLived(c, job.id, x0, script.events, i);
      i := i + 1;
      match event {
        case JobMoves(op) =>
          assert event in script.events;
          OpKeepsJob(m.State(), job, op);
          var moved := m.Do(job.id, op);
        case PeerGone(reason) =>
          exit := Leave(m, fs, out, job, partial, "transfer failed: " + reason, script, c, rx0, run, receiver, disk, told);
          return exit, run, n;
        case Arrives(message, io) =>
          var done;
          done, exit := OnMessage(m, fs, out, job, c, script, receiver, keep, message, io, rx0, run, disk, told);
          run := run + [Delivery(message, io)];
          if done { return exit, run, n; }
      }
    }
    n := i;
    HeldIsThere(m.State(), job);
    PartialHolds(c, rx0, run, receiver.State(), disk, fs.files, partial);
    exit := Leave(m, fs, out, job, partial, "transfer failed: context canceled", script, c, rx0, run, receiver, disk, told);
  }

  lemma NothingLived(c: RxConfig, id: string, x0: Live, events: seq<LiveEvent>)
    ensures LiveAt(c, id, x0, events[..0]) == x0 && Lasts(c, id, x0, events[..0]) && RunOf(events[..0]) == []
  {
  }

  lemma OneMoreLived(c: RxConfig, id: string, x0: Live, events: seq<LiveEvent>, i: nat)
    requires i < |events|
    ensures var x, e := LiveAt(c, id, x0, events[..i]), events[i];
      && LiveAt(c, id, x0, events[..i + 1]) == LiveStep(c, id, x, e)
      && (Lasts(c, id, x0, events[..i + 1]) <==> Lasts(c, id, x0, events[..i]) && !Stops(c, x, e))
      && RunOf(events[..i + 1]) == (if e.Arrives? then RunOf(events[..i]) + [Delivery(e.message, e.io)] else RunOf(events[..i]))
      && (e.PeerGone? ==> Stops(c, x, e)) && (e.JobMoves? ==> !Stops(c, x, e))
      && (e.JobMoves? ==> LiveStep(c, id, x, e) == x.(store := Apply(x.store, id, e.op).0))
  {
    hide LiveStep, AcceptStep;
    assert events[..i + 1][..i] == events[..i];
    StepOnMove(c, id, LiveAt(c, id, x0, events[..i]), events[i]);
  }

  lemma StepOnMove(c: RxConfig, id: string, x: Live, e: LiveEvent)
    ensures e.JobMoves? ==> LiveStep(c, id, x, e) == x.(store := Apply(x.store, id, e.op).0)
  {
    hide AcceptStep, Apply;
  }

  lemma PartialHolds(c: RxConfig, rx0: RxState, run: seq<Delivery>, s: RxState, disk: Disk, d: Disk, partial: string)
    requires InLoop(c, rx0, run, s, d, partial) && d - {partial} == disk - {partial}
    ensures d == disk[partial := s.hashed]
  {
    forall p ensures p in d <==> p in disk[partial := s.hashed] {
      assert p in d && p != partial <==> p in d - {partial};
      assert p in disk && p != partial <==> p in disk - {partial};
    }
    forall p | p in d ensures d[p] == disk[partial := s.hashed][p] {
      if p != partial { assert (d - {partial})[p] == d[p] && (disk - {partial})[p] == disk[p]; }
    }
  }

  lemma NothingSaid(told: seq<Signal>)
    ensures Unannounced(told, told)
  {
  }

  // What a retryable leave establishes, if the job has not ended.
  ghost predicate LeftInStep(s: Store, d: Disk, sent: seq<Signal>, job: Job, rx: RxState) {
    && sent != [] && sent[|sent| - 1].RetryableSignal?
    && PartialPath(job.destinationPath) in d && d[PartialPath(job.destinationPath)] <= rx.hashed
    && job.id in s.jobs
    && (!s.jobs[job.id].status.IsTerminal() ==>
          InStep(s, job.id, d, PartialPath(job.destinationPath), sent[|sent| - 1].bytes))
  }

  // What a finished attempt establishes. The partial file may have been kept.
  ghost predicate LeftFinished(s: Store, d: Disk, told: seq<Signal>, sent: seq<Signal>, job: Job, c: RxConfig, rx: RxState,
                               m: Manifest, kept: bool) {
    && job.destinationPath in d && (PartialPath(job.destinationPath) in d <==> kept)
    && d[job.destinationPath] == rx.hashed
    && |d[job.destinationPath]| == job.fileSizeBytes == m.totalBytes
    && c.digest(d[job.destinationPath]) == m.sha256Hex
    && job.id in s.jobs && s.jobs[job.id].status.Completed?
    && sent != [] && sent[|sent| - 1] == CompletedSignal && Unannounced(told, sent[..|sent| - 1])
  }

  // How an attempt leaves when its peer or its context has gone: retryably, if
  // the partial file can be measured and, where it must be, cut.
  ghost predicate LeavesRetryably(a: Scene, b: Scene, job: Job, reason: string, script: LiveScript, exit: LiveExit) {
    var partial := PartialPath(job.destinationPath);
    && job.id in a.store.jobs && partial in a.disk
    && var size, progress := |a.disk[partial]|, a.store.jobs[job.id].progressBytes;
       if !script.statFails && (size > progress ==> !script.truncateFails) then
         && exit.Retried?
         && b == Scene(SettleStore(a.store, job.id, reason, size), SettleDisk(a.disk, partial, progress),
                       a.sent + [RetryableSignal(if size < progress then size else progress)])
       else
         && exit.Broken?
         && b == Scene(FailedIn(RetryOutcome(a.store, job.id, reason).0, job.id), a.disk, a.sent + [FailedSignal])
  }

  lemma ProgressIsCounted(s: Store, id: string)
    requires Valid(s) && id in s.jobs
    ensures 0 <= s.jobs[id].progressBytes
  {
    assert GoodJob(id, s.jobs[id], s.sequence);
  }

  // It gets away with that unless the partial file cannot be measured, or be cut
  // although it is longer than the progress stored. Then the file stays as it
  // is, the job has failed, and this is what it says.
  lemma LeavesExactly(a: Scene, b: Scene, job: Job, reason: string, script: LiveScript, exit: LiveExit)
    requires LeavesRetryably(a, b, job, reason, script, exit) && Valid(a.store) && reason != ""
    ensures var partial := job.destinationPath + ".part";
      var size, progress := |a.disk[partial]|, a.store.jobs[job.id].progressBytes;
      var least := if size < progress then size else progress;
      && (exit.Retried? <==> !script.statFails && (size <= progress || !script.truncateFails))
      && (exit.Retried? ==>
            && b.sent == a.sent + [RetryableSignal(least)]
            && 0 <= least && b.disk == a.disk[partial := a.disk[partial][..least]])
      && (!exit.Retried? ==>
            && exit.Broken? && b.disk == a.disk && b.sent == a.sent + [FailedSignal]
            && job.id in b.store.jobs
            && b.store.jobs[job.id].status == (if a.store.jobs[job.id].status.IsTerminal() then a.store.jobs[job.id].status else JobStatus.Failed))
  {
    hide SettleStore, FailedIn, RetryOutcome, Valid;
    var partial := PartialPath(job.destinationPath);
    RetryReachesRetryable(a.store, job.id, reason);
    FailedInMeans(RetryOutcome(a.store, job.id, reason).0, job.id);
    ProgressIsCounted(a.store, job.id);
    assert a.disk[partial][..|a.disk[partial]|] == a.disk[partial];
  }

  method Leave(m: JobManager, fs: FileStore, out: Outbox, job: Job, partial: string, reason: string, script: LiveScript,
               c: RxConfig, ghost rx0: RxState, ghost run: seq<Delivery>, receiver: Receiver, ghost disk: Disk, ghost told: seq<Signal>)
    returns (exit: LiveExit)
    requires Holds(m.State(), job) && job.transferID != "" && job.direction.Receive?
    requires partial == PartialPath(job.destinationPath) && reason != ""
    requires InLoop(c, rx0, run, receiver.State(), fs.files, partial)
    requires fs.files - {partial} == disk - {partial} && Unannounced(told, out.sent)
    modifies m, fs, out
    ensures Holds(m.State(), job) && !exit.Finished?
    ensures OthersUntouched(disk, fs.files, partial, job.destinationPath)
    ensures Unannounced(told, out.sent)
    ensures exit.Retried? ==> LeftInStep(m.State(), fs.files, out.sent, job, Play(c, rx0, run).state)
    ensures LeavesRetryably(old(SceneNow(m, fs, out)), SceneNow(m, fs, out), job, reason, script, exit)
  {
    hide Valid, Play, InLoop, OthersUntouched, Unannounced, FailedIn, SettleStore, SettleDisk, RetryOutcome, PartialPath;
    ghost var said := out.sent;
    InLoopMeans(c, rx0, run, receiver.State(), fs.files, partial);
    PathsApart(job.destinationPath);
    exit := LeaveRetryably(m, fs, out, job, partial, reason, script.statFails, script.truncateFails);
    OnlyPartialTouched(disk, fs.files, partial, job.destinationPath);
    OneMore(said, out.sent);
    StillUnannounced(told, said, out.sent);
  }

  // The receiver as the loop begins, if the attempt gets that far.
  ghost function Entry(d: Disk, job: Job, c: RxConfig, script: LiveScript): Option<RxState> {
    var partial := PartialPath(job.destinationPath);
    var resume := LiveReceiverResume(PartOf(d, partial), job, c.digest);
    if job.destinationPath == "" || job.destinationPath in d || resume.Err? || script.openFails then None
    else if resume.value.None? then if script.clearFails && partial in d then None else Some(Fresh())
    else if partial !in d then None
    else
      var r := ResumeReceiver(c, d[partial], false, resume.value.value);
      if r.Err? then None else Some(r.value)
  }

  // An attempt gets that far exactly when its destination is free, the partial
  // file fits the job, or has been cleared away, and can be opened. A partial
  // file that fits is never refused by the receiver.
  lemma EntryExactly(d: Disk, job: Job, c: RxConfig, script: LiveScript)
    requires c.transferID == job.transferID != ""
    ensures var partial := job.destinationPath + ".part";
      var resumable := job.status.Retryable? && job.progressBytes > 0 && partial in d;
      && (Entry(d, job, c, script).Some? <==>
            && job.destinationPath != "" && job.destinationPath !in d && !script.openFails
            && if resumable then |d[partial]| == job.progressBytes <= job.fileSizeBytes else partial in d ==> !script.clearFails)
      && (Entry(d, job, c, script).Some? ==>
            var rx0 := Entry(d, job, c, script).value;
            Starting(rx0) && rx0.hashed == if resumable then d[partial] else [])
  {
    hide SequenceForOffset;
    var partial := PartialPath(job.destinationPath);
    if partial in d { assert d[partial][..|d[partial]|] == d[partial]; }
  }

  lemma WhyIsSaid(events: seq<LiveEvent>, n: nat)
    ensures Why(events, n) == "transfer failed: " + (if n < |events| && events[n].PeerGone? then events[n].reason else "context canceled")
    ensures Why(events, n) != ""
  {
  }

  // While nothing else moves a running job: all that has been accepted has been
  // reported, chunk by chunk; and a retryable leave keeps exactly that, in the
  // partial file, as stored progress and in its message.
  lemma UndisturbedLeaveKeepsAll(a: Scene, b: Scene, job: Job, c: RxConfig, rx0: RxState, script: LiveScript, keep: bool, n: nat,
                                 run: seq<Delivery>, exit: LiveExit)
    requires EndsAt(a, b, job, c, rx0, script, keep, n, run, exit) && exit.Retried?
    requires Valid(a.store) && job.id in a.store.jobs && IsRunning(a.store.jobs[job.id].status) && NoMoves(script.events)
    requires Starting(rx0) && |rx0.hashed| <= a.store.jobs[job.id].progressBytes
    requires |Play(c, rx0, run).state.hashed| <= a.store.jobs[job.id].fileSizeBytes
    ensures var kept := Play(c, rx0, run).state.hashed;
      && PartialPath(job.destinationPath) in b.disk && b.disk[PartialPath(job.destinationPath)] == kept
      && job.id in b.store.jobs && b.store.jobs[job.id].progressBytes == |kept| && b.store.jobs[job.id].status.Retryable?
      && b.store.jobs[job.id].failureReason
         == "transfer failed: " + (if n < |script.events| && script.events[n].PeerGone? then script.events[n].reason else "context canceled")
      && b.sent == a.sent + Reports(c, rx0, run) + [RetryableSignal(|kept|)]
  {
    hide Valid, Play, Apply, SettleStore, Reports, RunOf, Lasts, LiveAt, AcceptedChunks, EndsAt, LeavesRetryably, NoMoves, WrapInt64,
         PartialPath, AcceptStep, Why;
    WhyIsSaid(script.events, n);
    var x0 := Live(a.store, rx0, a.sent);
    RetriedMeans(a, b, job, c, rx0, script, keep, n, run, exit);
    var x := LiveAt(c, job.id, x0, script.events[..n]);
    assert NoMoves(script.events[..n]) by { SomeMoveNot(script.events, n); }
    LiveReceiverPlays(c, job.id, x0, script.events[..n]);
    ProgressKeepsUp(c, job.id, x0, script.events[..n]);
    LivedIsValid(c, job.id, x0, script.events[..n]);
    assert x.rx == Play(c, rx0, run).state && |x.rx.hashed| <= x.store.jobs[job.id].progressBytes;
    LeaveKeeps(Scene(x.store, a.disk[PartialPath(job.destinationPath) := x.rx.hashed], x.sent), b, job, Why(script.events, n), script, exit);
  }

  lemma SomeMoveNot(events: seq<LiveEvent>, n: nat)
    requires NoMoves(events) && n <= |events|
    ensures NoMoves(events[..n])
  {
    assert forall e :: e in events[..n] ==> e in events;
  }

  lemma RetriedMeans(a: Scene, b: Scene, job: Job, c: RxConfig, rx0: RxState, script: LiveScript, keep: bool, n: nat,
                     run: seq<Delivery>, exit: LiveExit)
    requires EndsAt(a, b, job, c, rx0, script, keep, n, run, exit) && exit.Retried?
    ensures n <= |script.events| && run == RunOf(script.events[..n])
    ensures var x0 := Live(a.store, rx0, a.sent);
      var x := LiveAt(c, job.id, x0, script.events[..n]);
      && Lasts(c, job.id, x0, script.events[..n])
      && LeavesRetryably(Scene(x.store, a.disk[PartialPath(job.destinationPath) := x.rx.hashed], x.sent), b, job,
                         Why(script.events, n), script, exit)
  {
    hide LiveAt, Lasts, RunOf, LeavesRetryably, AcceptStep, CommitOutcome, CompleteOutcome, FailedIn, Why;
  }

  // A retryable leave of a running job that has stored at least what is there.
  lemma LeaveKeeps(a: Scene, b: Scene, job: Job, reason: string, script: LiveScript, exit: LiveExit)
    requires LeavesRetryably(a, b, job, reason, script, exit) && exit.Retried? && reason != ""
    requires Valid(a.store) && IsRunning(a.store.jobs[job.id].status)
    requires |a.disk[PartialPath(job.destinationPath)]| <= a.store.jobs[job.id].progressBytes
    ensures var kept := a.disk[PartialPath(job.destinationPath)];
      && PartialPath(job.destinationPath) in b.disk && b.disk[PartialPath(job.destinationPath)] == kept
      && job.id in b.store.jobs && b.store.jobs[job.id].progressBytes == |kept| && b.store.jobs[job.id].status.Retryable?
      && b.store.jobs[job.id].failureReason == reason
      && b.sent == a.sent + [RetryableSignal(|kept|)]
  {
    hide Valid, SettleStore, PartialPath, RetryOutcome, FailedIn;
    var partial := PartialPath(job.destinationPath);
    SettlingPutsInStep(a.store, job.id, a.disk, partial, reason);
    SettledIsLive(a.store, job.id, reason, |a.disk[partial]|);
  }

  lemma SettledIsLive(s: Store, id: string, reason: string, size: nat)
    requires id in s.jobs && IsRunning(s.jobs[id].status) && reason != ""
    ensures var t := SettleStore(s, id, reason, size); id in t.jobs && !t.jobs[id].status.IsTerminal()
  {
    hide RetryOutcome, Apply;
    RetryReachesRetryable(s, id, reason);
    if size < TWO_TO_63 { ProgressUpdate(RetryOutcome(s, id, reason).0, id, size); }
  }

  lemma {:induction false} LivedIsValid(c: RxConfig, id: string, x0: Live, events: seq<LiveEvent>)
    requires Valid(x0.store)
    ensures Valid(LiveAt(c, id, x0, events).store)
    decreases |events|
  {
    hide AcceptStep, Apply, Valid;
    if events != [] {
      LivedIsValid(c, id, x0, events[..|events| - 1]);
      var x := LiveAt(c, id, x0, events[..|events| - 1]);
      forall op ensures Valid(Apply(x.store, id, op).0) { ApplyKeepsValid(x.store, id, op); }
    }
  }

  // Clearing the partial file away, or creating it, does not show in the end.
  lemma SameEnd(a: Scene, ready: Scene, b: Scene, job: Job, c: RxConfig, rx0: RxState, script: LiveScript, keep: bool, n: nat,
                run: seq<Delivery>, exit: LiveExit)
    requires EndsAt(ready, b, job, c, rx0, script, keep, n, run, exit)
    requires a.store == ready.store && a.sent == ready.sent
    requires ready.disk - {PartialPath(job.destinationPath)} == a.disk - {PartialPath(job.destinationPath)}
    ensures EndsAt(a, b, job, c, rx0, script, keep, n, run, exit)
  {
    hide StopsOn, LeavesRetryably, Lasts, LiveAt, RunOf, Stops, PartialPath;
    var x := LiveAt(c, job.id, Live(a.store, rx0, a.sent), script.events[..n]);
    SameButOne(a.disk, ready.disk, PartialPath(job.destinationPath), x.rx.hashed);
  }

  lemma SameButOne(d: Disk, e: Disk, p: string, data: Bytes)
    requires d - {p} == e - {p}
    ensures d[p := data] == e[p := data]
  {
    assert d[p := data] == (d - {p})[p := data];
    assert e[p := data] == (e - {p})[p := data];
  }

  // runLiveReceiverOnce from the point where the data channel is open and the
  // job is marked started. (The retryable leave before that point touches no
  // file.)
  //
  // If it leaves retryably with a job that has not ended, the partial file, the
  // stored progress and the reported progress are one number and the partial
  // is a prefix of the accepted bytes. If it finishes, the destination is new,
  // holds exactly the accepted bytes, of the declared size, and the job is
  // Completed; and completion is announced then and only then, last of all.
  method RunLiveReceiverOnce(m: JobManager, fs: FileStore, out: Outbox, job: Job, c: RxConfig, script: LiveScript)
    returns (exit: LiveExit, ghost rx0: RxState, ghost run: seq<Delivery>, ghost n: nat)
    requires Holds(m.State(), job) && job.transferID != "" && job.direction.Receive?
    requires c.transferID == job.transferID
    requires forall e :: e in script.events ==> e.JobMoves? ==> OutsideOp(e.op)
    modifies m, fs, out
    ensures Holds(m.State(), job)
    ensures OthersUntouched(old(fs.files), fs.files, PartialPath(job.destinationPath), job.destinationPath)
    ensures !exit.Finished? ==> Unannounced(old(out.sent), out.sent)
    ensures exit.Retried? ==> LeftInStep(m.State(), fs.files, out.sent, job, Play(c, rx0, run).state)
    ensures exit.Finished? ==>
      && job.destinationPath !in old(fs.files)
      && LeftFinished(m.State(), fs.files, old(out.sent), out.sent, job, c, Play(c, rx0, run).state, exit.manifest, script.commit.drop.Skipped?)
    ensures Starting(rx0)
    ensures rx0.hashed == [] || (PartialPath(job.destinationPath) in old(fs.files)
                                 && rx0.hashed == old(fs.files)[PartialPath(job.destinationPath)])
    ensures Entry(old(fs.files), job, c, script).None? ==>
      && exit.Broken? && m.State() == FailedIn(old(m.State()), job.id) && out.sent == old(out.sent) + [FailedSignal]
      && fs.files - {PartialPath(job.destinationPath)} == old(fs.files) - {PartialPath(job.destinationPath)}
    ensures Entry(old(fs.files), job, c, script).Some? ==>
      && rx0 == Entry(old(fs.files), job, c, script).value
      && EndsAt(old(SceneNow(m, fs, out)), SceneNow(m, fs, out), job, c, rx0, script,
                rx0.hashed != [], n, run, exit)
    ensures job.id in old(m.jobs)
    ensures exit.Retried? && NoMoves(script.events) && IsRunning(old(m.jobs)[job.id].status)
            && |rx0.hashed| <= old(m.jobs)[job.id].progressBytes && |Play(c, rx0, run).state.hashed| <= job.fileSizeBytes ==>
      var kept := Play(c, rx0, run).state.hashed;
      && PartialPath(job.destinationPath) in fs.files && fs.files[PartialPath(job.destinationPath)] == kept
      && job.id in m.jobs && m.jobs[job.id].progressBytes == |kept| && m.jobs[job.id].status.Retryable?
      && out.sent == old(out.sent) + Reports(c, rx0, run) + [RetryableSignal(|kept|)]
  {
    hide Valid, Holds, Play, AcceptStep, InLoop, LiveReceiverResume, OutsideOp, OthersUntouched, Unannounced, LeftFinished,
         EndsAt, FailedIn, ResumeReceiver, NoMoves, Reports, PartialPath;
    HeldIsThere(m.State(), job);
    PathsApart(job.destinationPath);
    n := 0;
    ghost var a := SceneNow(m, fs, out);
    ghost var told := out.sent;
    ghost var disk := fs.files;
    var destination := job.destinationPath;
    var partial := PartialPath(destination);
    rx0, run := Fresh(), [];
    OnlyPartialTouched(disk, fs.files, partial, destination);
    if destination == "" || destination in fs.files {
      FailAndTell(m, out, job);
      OneMore(told, out.sent);
      return Broken, rx0, run, n;
    }
    var resume := PreparePartial(fs, partial, job, c.digest, script.clearFails);
    if resume.Err? {
      FailAndTell(m, out, job);
      OneMore(told, out.sent);
      return Broken, rx0, run, n;
    }
    var resumed := resume.value.Some?;
    var ready := !script.openFails;
    if ready && !resumed { ready := fs.CreateExclusive(partial); }
    OnlyPartialTouched(disk, fs.files, partial, destination);
    if !ready {
      FailAndTell(m, out, job);
      OneMore(told, out.sent);
      return Broken, rx0, run, n;
    }
    var receiver := new Receiver(c.transferID, c.options, c.digest);
    if resumed {
      ResumedHasPart(PartOf(disk, partial), job, c.digest);
      var refused := receiver.Resume(fs.files[partial], false, resume.value.value);
      if refused.Some? {
        FailAndTell(m, out, job);
        OneMore(told, out.sent);
        return Broken, rx0, run, n;
      }
      TakesUp(c, fs.files[partial], job);
    }
    rx0 := receiver.State();
    StartOfLoop(c, rx0, fs.files, partial);
    ghost var ready_disk := fs.files;
    ghost var ready_scene := SceneNow(m, fs, out);
    exit, run, n := ReceiveLoop(m, fs, out, job, c, script, receiver, resumed);
    UntouchedSoFar(disk, ready_disk, fs.files, partial, destination);
    SameEnd(a, ready_scene, SceneNow(m, fs, out), job, c, rx0, script, resumed, n, run, exit);
    if exit.Retried? && NoMoves(script.events) && IsRunning(a.store.jobs[job.id].status)
       && |rx0.hashed| <= a.store.jobs[job.id].progressBytes && |Play(c, rx0, run).state.hashed| <= job.fileSizeBytes {
      HeldIsValid(a.store, job);
      UndisturbedLeaveKeepsAll(a, SceneNow(m, fs, out), job, c, rx0, script, resumed, n, run, exit);
    }
  }
}
