// Where an interrupted transfer takes up again (internal/agentd/
// transfer_runtime.go and the resume half of internal/agentd/backend_client.go).
module Resume {
  import opened Wrappers
  import opened GoIntegers
  import opened Division
  import opened ChunkCrypto
  import opened Frames
  import opened ReceiverProtocol
  import opened ReceiverLatch
  import opened SenderProtocol
  import opened StreamSimulation
  import opened Jobs

  const DEFAULT_CHUNK_SIZE: int := 64 * 1024

  type ChunkSize = c: int | 0 < c < TWO_TO_63 witness 1

  function RuntimeChunkSize(chunkSize: int64): ChunkSize {
    if chunkSize <= 0 then DEFAULT_CHUNK_SIZE else chunkSize
  }

  // The sequence number re-derived from an offset, in Go's arithmetic.
  function SequenceForOffset(offset: int64, c: ChunkSize): uint64 {
    if offset <= 0 then 0
    else WrapUint64(TruncatedDiv(WrapInt64(WrapInt64(offset + c) - 1), c))
  }

  // How many chunks of size c cover n bytes, counted one chunk at a time.
  function Chunks(n: nat, c: ChunkSize): (k: nat)
    ensures k <= n && (n > 0 ==> k >= 1)
  {
    if n == 0 then 0 else if n <= c then 1 else 1 + Chunks(n - c, c)
  }

  // prepareRuntimeResume: no partial file means no resume; a partial longer
  // than the transfer is an error; otherwise the whole partial is the prefix.
  function PrepareRuntimeResume(part: Option<Bytes>, transferID: string, totalBytes: int64, chunkSize: int64, digest: Hash)
    : Result<Option<ResumeManifest>, P2PError>
  {
    if part.None? then Ok(None)
    else if |part.value| > totalBytes then Err(ResumePastTotalBytes)
    else Ok(Some(ResumeManifest(transferID, SequenceForOffset(|part.value|, RuntimeChunkSize(chunkSize)),
                                |part.value|, totalBytes, digest(part.value))))
  }

  // liveSenderResumeManifest, on a source whose reads succeed.
  function LiveSenderResume(source: Bytes, job: Job, digest: Hash): Result<Option<ResumeManifest>, P2PError> {
    if !job.status.Retryable? || job.progressBytes <= 0 then Ok(None)
    else if job.progressBytes > job.fileSizeBytes then Err(ResumePastTotalBytes)
    else if |source| < job.progressBytes then Err(UnexpectedOffset)
    else Ok(Some(ResumeManifest(job.transferID, SequenceForOffset(job.progressBytes, RuntimeChunkSize(0)),
                                job.progressBytes, job.fileSizeBytes, digest(source[..job.progressBytes]))))
  }

  // liveReceiverResumeState.
  function LiveReceiverResume(part: Option<Bytes>, job: Job, digest: Hash): Result<Option<ResumeManifest>, P2PError> {
    if !job.status.Retryable? || job.progressBytes <= 0 then Ok(None)
    else
      var r := PrepareRuntimeResume(part, job.transferID, job.fileSizeBytes, 0, digest);
      if r.Err? || r.value.None? then r
      else if r.value.value.nextOffset != job.progressBytes then Err(UnexpectedOffset)
      else r
  }

  // That count is the ceiling of n / c.
  lemma {:induction false} ChunksIsCeiling(n: nat, c: ChunkSize)
    ensures Chunks(n, c) == (n + c - 1) / c
  {
    if n == 0 {
      DivUnique(c - 1, c, 0, c - 1);
    } else if n <= c {
      DivUnique(n + c - 1, c, 1, n - 1);
    } else {
      ChunksIsCeiling(n - c, c);
      DivStep(n - 1, c);
    }
  }

  lemma WrappedSum(offset: int64, c: ChunkSize)
    requires offset > 0
    ensures WrapInt64(WrapInt64(offset + c) - 1)
            == if offset + c - 1 < TWO_TO_63 then offset + c - 1 else offset + c - 1 - TWO_TO_64
  {
    if offset + c >= TWO_TO_63 {
      assert WrapInt64(offset + c) == offset + c - TWO_TO_64;
    }
  }

  lemma SequenceInRange(offset: int64, c: ChunkSize)
    requires offset > 0 && offset + c - 1 < TWO_TO_63
    ensures SequenceForOffset(offset, c) == (offset + c - 1) / c
  {
    hide WrapInt64;
    WrappedSum(offset, c);
    QuotientNotLarger(offset + c - 1, c);
  }

  lemma NegativeQuotient(n: int, c: ChunkSize)
    requires -TWO_TO_63 <= n < 0
    ensures -TWO_TO_63 <= TruncatedDiv(n, c) <= 0
  {
    QuotientNotLarger(-n, c);
  }

  lemma SequenceOverflowed(offset: int64, c: ChunkSize)
    requires offset > 0 && offset + c - 1 >= TWO_TO_63
    ensures SequenceForOffset(offset, c) == 0 || SequenceForOffset(offset, c) >= TWO_TO_63
  {
    hide WrapInt64, TruncatedDiv;
    WrappedSum(offset, c);
    NegativeQuotient(offset + c - 1 - TWO_TO_64, c);
  }

  // The arithmetic is right exactly when the sum inside it does not overflow.
  lemma SequenceForOffsetExact(offset: int64, c: ChunkSize)
    requires offset > 0
    ensures SequenceForOffset(offset, c) == Chunks(offset, c) <==> offset + c - 1 < TWO_TO_63
  {
    hide SequenceForOffset;
    if offset + c - 1 < TWO_TO_63 {
      SequenceInRange(offset, c);
      ChunksIsCeiling(offset, c);
    } else {
      SequenceOverflowed(offset, c);
    }
  }

  // Ordinary sizes do not overflow.
  lemma SequenceForOffsetIsChunks(offset: int64, c: ChunkSize)
    requires 0 <= offset && offset + c - 1 < TWO_TO_63
    ensures SequenceForOffset(offset, c) == Chunks(offset, c)
    ensures SequenceForOffset(offset, c) <= offset
  {
    if offset > 0 { SequenceForOffsetExact(offset, c); }
  }

  // In the caller's own chunk size, or 64 KiB if it names none.
  lemma SequenceInOwnChunks(offset: int64, chunkSize: int64)
    ensures var c := if chunkSize > 0 then chunkSize else 65536;
      var sequence := SequenceForOffset(offset, RuntimeChunkSize(chunkSize));
      && (offset <= 0 ==> sequence == 0)
      && (0 < offset && offset + c - 1 < TWO_TO_63 ==> sequence == Chunks(offset, c))
  {
    hide WrapInt64, WrapUint64;
    var c := if chunkSize > 0 then chunkSize else 65536;
    if 0 < offset && offset + c - 1 < TWO_TO_63 { SequenceForOffsetIsChunks(offset, c); }
  }

  // When a Retryable job resumes, where, and what stops it: the sender from its
  // source, the receiver from its partial file.
  lemma SenderResumesExactly(source: Bytes, job: Job, digest: Hash)
    ensures var r, p := LiveSenderResume(source, job, digest), job.progressBytes;
      if !job.status.Retryable? || p <= 0 then r == Ok(None)
      else if p > job.fileSizeBytes then r == Err(ResumePastTotalBytes)
      else if p > |source| then r == Err(UnexpectedOffset)
      else r == Ok(Some(ResumeManifest(job.transferID, SequenceForOffset(p, 65536), p, job.fileSizeBytes, digest(source[..p]))))
  {
    hide SequenceForOffset;
  }

  lemma ReceiverResumesExactly(part: Option<Bytes>, job: Job, digest: Hash)
    ensures var r, p := LiveReceiverResume(part, job, digest), job.progressBytes;
      if !job.status.Retryable? || p <= 0 || part.None? then r == Ok(None)
      else if |part.value| > job.fileSizeBytes then r == Err(ResumePastTotalBytes)
      else if |part.value| != p then r == Err(UnexpectedOffset)
      else r == Ok(Some(ResumeManifest(job.transferID, SequenceForOffset(p, 65536), p, job.fileSizeBytes, digest(part.value))))
  {
    hide SequenceForOffset;
  }

  // Sender and receiver agree on the point: the sender's state after its
  // resume check and the receiver's after its own are one another's match.
  ghost predicate SamePoint(tx: Result<Option<ResumeManifest>, P2PError>, rx: Result<Option<ResumeManifest>, P2PError>) {
    tx.Ok? && tx == rx
  }

  // Two snapshots of one transfer after the sender has adopted the progress
  // in the receiver's retryable message.
  ghost predicate AgreedSnapshots(source: Bytes, part: Option<Bytes>, sendJob: Job, receiveJob: Job) {
    && sendJob.transferID == receiveJob.transferID
    && sendJob.fileSizeBytes == receiveJob.fileSizeBytes == |source|
    && sendJob.progressBytes == receiveJob.progressBytes
    && 0 <= receiveJob.progressBytes <= receiveJob.fileSizeBytes
    && receiveJob.status.Retryable?
    && (receiveJob.progressBytes > 0 ==>
          part.Some? && |part.value| == receiveJob.progressBytes && part.value <= source)
  }

  // With both snapshots Retryable, both ends compute the same resume point,
  // or both start over at zero progress.
  lemma ResumePointsAgree(source: Bytes, part: Option<Bytes>, sendJob: Job, receiveJob: Job, digest: Hash)
    requires AgreedSnapshots(source, part, sendJob, receiveJob) && sendJob.status.Retryable?
    ensures SamePoint(LiveSenderResume(source, sendJob, digest), LiveReceiverResume(part, receiveJob, digest))
    ensures LiveSenderResume(source, sendJob, digest).value.None? <==> receiveJob.progressBytes == 0
  {
    if receiveJob.progressBytes > 0 {
      assert part.value == source[..receiveJob.progressBytes];
    }
  }

  // The receiver made from a resume point, or a fresh one without.
  function ReceiverAt(r: RxConfig, part: Option<Bytes>, resume: Option<ResumeManifest>): Result<RxState, P2PError> {
    if resume.None? then Ok(Fresh())
    else if part.None? then Err(FileMissing)
    else ResumeReceiver(r, part.value, false, resume.value)
  }

  // What the receiver already holds when it starts.
  function HeldBefore(part: Option<Bytes>, resume: Option<ResumeManifest>): Bytes {
    if resume.Some? && part.Some? then part.value else []
  }

  // And the stream that follows is accepted from its first frame to its
  // manifest, completing the partial file to the source.
  lemma ResumedStreamIsReceived(c: TxConfig, r: RxConfig, source: Bytes, part: Option<Bytes>, sendJob: Job,
                                receiveJob: Job, script: Script)
    requires Paired(c, r) && c.transferID == sendJob.transferID && |source| < TWO_TO_63
    requires AgreedSnapshots(source, part, sendJob, receiveJob) && sendJob.status.Retryable?
    requires LiveSenderResume(source, sendJob, c.digest) == Ok(c.resume)
    requires Delivers(source[receiveJob.progressBytes..], script.turns)
    requires Stream(c, source, script).result.Finished?
    ensures var rx := LiveReceiverResume(part, receiveJob, c.digest);
      rx.Ok? && ReceiverAt(r, part, rx.value).Ok?
      && var o := Stream(c, source, script);
         var p := Play(r, ReceiverAt(r, part, rx.value).value, InOrder(o.state.sent));
         && |o.state.sent| > 0
         && (forall k :: 0 <= k < |o.state.sent| - 1 ==> p.results[k] == Ok(None))
         && p.results[|o.state.sent| - 1] == Ok(Some(o.result.manifest))
         && HeldBefore(part, rx.value) + p.state.written == source
         && o.result.manifest.totalBytes == |source|
  {
    hide Stream, Play, LiveSenderResume, LiveReceiverResume, AgreedSnapshots;
    var rx := LiveReceiverResume(part, receiveJob, c.digest);
    ResumePointsAgree(source, part, sendJob, receiveJob, c.digest);
    FinishedHasID(c, source, script);
    ResumeStartsMeet(c, r, source, part, sendJob, receiveJob);
    FinishedStreamIsReceived(c, r, source, script, ReceiverAt(r, part, rx.value).value);
  }

  lemma FinishedHasID(c: TxConfig, source: Bytes, script: Script)
    requires Stream(c, source, script).result.Finished?
    ensures c.transferID != ""
  {
    hide ReadLoop, Conclude;
  }

  lemma ResumeStartsMeet(c: TxConfig, r: RxConfig, source: Bytes, part: Option<Bytes>, sendJob: Job, receiveJob: Job)
    requires Paired(c, r) && c.transferID == sendJob.transferID && c.transferID != ""
    requires |source| < TWO_TO_63
    requires AgreedSnapshots(source, part, sendJob, receiveJob) && sendJob.status.Retryable?
    requires LiveSenderResume(source, sendJob, c.digest) == Ok(c.resume)
    ensures var rx := LiveReceiverResume(part, receiveJob, c.digest);
      && rx == Ok(c.resume)
      && ReceiverAt(r, part, rx.value).Ok?
      && Meets(c, source, ReceiverAt(r, part, rx.value).value)
      && ReceiverAt(r, part, rx.value).value.hashed == HeldBefore(part, rx.value)
      && StartOffset(c) == receiveJob.progressBytes
  {
    ResumePointsAgree(source, part, sendJob, receiveJob, c.digest);
    if receiveJob.progressBytes > 0 {
      var n := receiveJob.progressBytes;
      assert part.value == source[..n] && part.value[..n] == part.value;
    }
  }

  // Agreement, exactly: the receiver resumes from any progress, the sender
  // only from a Retryable snapshot. (ClaimRetryable, which the local resume
  // endpoint performs first, leaves Connecting.)
  lemma ResumePointsAgreeExactly(source: Bytes, part: Option<Bytes>, sendJob: Job, receiveJob: Job, digest: Hash)
    requires AgreedSnapshots(source, part, sendJob, receiveJob)
    ensures SamePoint(LiveSenderResume(source, sendJob, digest), LiveReceiverResume(part, receiveJob, digest))
            <==> sendJob.status.Retryable? || receiveJob.progressBytes == 0
  {
    if sendJob.status.Retryable? {
      ResumePointsAgree(source, part, sendJob, receiveJob, digest);
    }
  }

  // The first frame of a stream that starts over is chunk 0.
  lemma FirstFrameIsChunkZero(c: TxConfig, r: RxConfig, source: Bytes, script: Script)
    requires Paired(c, r) && !r.options.allowPlaintext && c.resume.None? && |source| < TWO_TO_63
    requires Delivers(source, script.turns)
    requires Stream(c, source, script).state.sent != []
    ensures var f := Stream(c, source, script).state.sent[0];
      ValidateFrame(f).None? && f.frameType.Chunk? && f.transferID == c.transferID && f.sequence == 0
  {
    hide Stream, AcceptStep, ValidateFrame;
    var o := Stream(c, source, script);
    var ms := InOrder(o.state.sent);
    assert source[0..] == source;
    if o.result.Finished? {
      FinishedStreamIsReceived(c, r, source, script, Fresh());
    } else {
      StreamSyncs(c, r, source, script, Fresh());
    }
    PlayAt(r, Fresh(), ms, 0);
    assert ms[..0] == [];
    OnlyAChunkIsAcceptedFirst(r, o.state.sent[0]);
  }

  lemma OnlyAChunkIsAcceptedFirst(r: RxConfig, f: Frame)
    requires !r.options.allowPlaintext && AcceptStep(r, Fresh(), Json(f), WriteAll).1.Ok?
    ensures ValidateFrame(f).None? && f.frameType.Chunk? && f.transferID == r.transferID && f.sequence == 0
  {
    hide ChunkPlaintext;
  }

  lemma WrongSequenceIsRefused(r: RxConfig, rx: RxState, f: Frame)
    requires ValidateFrame(f).None? && f.frameType.Chunk? && f.transferID == r.transferID && r.transferID != ""
    requires f.sequence != rx.nextSeq && !rx.complete && !rx.failed
    ensures AcceptStep(r, rx, Json(f), WriteAll) == (rx.(failed := true), Err(UnexpectedSequence))
  {
  }

  // What disagreement costs: after a claim, any stream the sender then starts
  // is refused at its first frame, and the receiver takes nothing of it.
  lemma ClaimedResumeIsRefused(c: TxConfig, r: RxConfig, source: Bytes, part: Option<Bytes>, sendJob: Job,
                               receiveJob: Job, script: Script)
    requires Paired(c, r) && !r.options.allowPlaintext && c.transferID == sendJob.transferID != ""
    requires |source| + DEFAULT_CHUNK_SIZE < TWO_TO_63
    requires AgreedSnapshots(source, part, sendJob, receiveJob) && receiveJob.progressBytes > 0
    requires !sendJob.status.Retryable?
    requires LiveSenderResume(source, sendJob, c.digest) == Ok(c.resume)
    requires Delivers(source, script.turns) && Stream(c, source, script).state.sent != []
    ensures var rx := LiveReceiverResume(part, receiveJob, c.digest);
      rx.Ok? && ReceiverAt(r, part, rx.value).Ok?
      && var p := Play(r, ReceiverAt(r, part, rx.value).value, InOrder(Stream(c, source, script).state.sent));
         p.results[0] == Err(UnexpectedSequence) && p.state.failed && p.state.written == []
  {
    hide Stream, AcceptStep, ValidateFrame, SequenceForOffset;
    var rx := LiveReceiverResume(part, receiveJob, c.digest).value;
    assert part.value[..receiveJob.progressBytes] == part.value;
    var s := ReceiverAt(r, part, rx).value;
    SequenceForOffsetIsChunks(receiveJob.progressBytes, DEFAULT_CHUNK_SIZE);
    var sent := Stream(c, source, script).state.sent;
    var ms := InOrder(sent);
    FirstFrameIsChunkZero(c, r, source, script);
    WrongSequenceIsRefused(r, s, sent[0]);
    PlayAt(r, s, ms, 0);
    assert ms[..0] == [];
    LatchHolds(r, s.(failed := true), ms[1..]);
  }
}
