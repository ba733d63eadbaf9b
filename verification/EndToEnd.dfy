// One agent-to-agent transfer across the whole system: the sender's daemon, the
// server, an arbitrary network in between, and the receiver's daemon. Each step
// is one atomic move of one of them; everything else may happen in between.
module EndToEnd {
  import opened Wrappers
  import opened GoIntegers
  import opened ChunkCrypto
  import opened Frames
  import opened ReceiverProtocol
  import opened ReceiverLatch
  import opened SenderProtocol
  import opened StreamSimulation
  import opened PrefixSafety
  import opened NetworkSafety
  import opened Jobs
  import opened JobRuns
  import opened JobOrder
  import opened Files
  import opened Signaling
  import opened JobDrivers
  import opened IncomingEnvelopes
  import opened LiveProgress
  import opened LiveReceiver

  // What does not change: the transfer and its source, the jobs bound to it on
  // either side, the transfers the server serves, and the sealing log.
  datatype Setup = Setup(transfer: Transfer, usable: map<string, Transfer>,
                         sources: map<string, Bytes>, ghost log: set<SealedChunk>,
                         sendID: string, receiveID: string, destination: string,
                         config: RxConfig, disk0: Disk)

  // Where the receiver's live attempt stands. While it commits, the new
  // destination is being filled from the partial file.
  datatype Phase =
    | Idle
    | Receiving(rx: RxState)
    | GotManifest(manifest: Manifest)
    | Copying(committing: Manifest, copied: nat)
    | Committed
    | Announcing

  // checked: the send jobs whose completion has passed its checks and is still
  // to be performed. leftBehind: how much of the destination a commit had
  // copied when it failed and could not remove it again.
  datatype World = World(sendStore: Store, checked: set<string>, receiveStore: Store, routed: set<Envelope>,
                         disk: Disk, leftBehind: Option<nat>, phase: Phase)

  datatype Move =
    | SenderMoves(step: Step)
    | SenderHears(message: Envelope, alwaysOn: bool)
    | SenderChecks(announcement: Envelope, jobID: string)
    | SenderCompletes(jobID: string)
    | ReceiverMoves(step: Step)
    | ReceiverHears(message: Envelope, alwaysOn: bool)
    | Post(socket: Socket, envelope: Envelope)
    | StartAttempt(keep: nat, nextSeq: uint64)
    | Deliver(delivery: Delivery, reported: bool)
    | StopAttempt(removePartial: bool)
    | CommitOpens
    | CommitCopies(more: nat)
    | CommitEnds(drop: Dropping)
    | CommitFails(cleanupFails: bool)
    | CompleteReceive
    | Announce

  ghost predicate WellSet(u: Setup) {
    && u.transfer.id != "" && u.transfer.toAgent.Some?
    && u.transfer.id in u.usable && u.usable[u.transfer.id] == u.transfer
    && u.config.transferID == u.transfer.id && u.config.DemandsEncryption()
    && u.transfer.id in u.sources && |u.sources[u.transfer.id]| < TWO_TO_63
    && HonestLog(u.sources, u.log)
    && PartialPath(u.destination) !in u.disk0
  }

  function Source(u: Setup): Bytes
    requires u.transfer.id in u.sources
  {
    u.sources[u.transfer.id]
  }

  // handleEnvelope's checks on a completion: the envelope is for a send job of
  // this agent bound to its transfer, and from the peer that job expects.
  predicate AcceptsCompletion(s: Store, agent: string, e: Envelope, jobID: string) {
    && e.messageType.TransferCompleted? && jobID in s.jobs && s.jobs[jobID].transferID == e.transferID
    && CheckIncoming(Some(s.jobs[jobID]), agent, e).None? && s.jobs[jobID].direction.Send?
  }

  // A job is bound to its transfer once, when it is created or offered.
  predicate KeepsBinding(step: Step, id: string) {
    step.On? && step.jobID == id ==> !step.op.AttachTransfer?
  }

  predicate CompletesJob(step: Step, id: string) { step.On? && step.jobID == id && step.op.Complete? }

  // The receiver's own socket speaks only for the receiver's daemon, which
  // announces completion in no other way than Announce.
  predicate SpeaksForReceiver(u: Setup, s: Socket, e: Envelope)
    requires u.transfer.toAgent.Some?
  {
    s == TokenSocket(u.transfer.toAgent.value) && e.messageType.TransferCompleted? && e.transferID == u.transfer.id
  }

  function Announcement(u: Setup): Envelope
    requires u.transfer.toAgent.Some?
  {
    Envelope(TransferCompleted, "", "", u.transfer.id, u.transfer.toAgent.value, u.transfer.fromAgentID, None)
  }

  // The receiver's report of what it has taken so far.
  function Report(u: Setup, bytes: int): Envelope
    requires u.transfer.toAgent.Some?
  {
    Envelope(TransferProgress, "", "", u.transfer.id, u.transfer.toAgent.value, u.transfer.fromAgentID, Some(bytes))
  }

  function Routed(u: Setup, w: World, s: Socket, e: Envelope): World {
    if ValidateEnvelope(e).None? && Authorize(u.usable, s, e).None? then w.(routed := w.routed + {e}) else w
  }

  function ReceiveJobOf(u: Setup, w: World): Job
    requires u.receiveID in w.receiveStore.jobs
  {
    w.receiveStore.jobs[u.receiveID]
  }

  // When a move can happen.
  ghost predicate Enabled(u: Setup, w: World, move: Move)
    requires WellSet(u) && u.receiveID in w.receiveStore.jobs
  {
    match move
    // any operation of the sender's daemon on any of its jobs; a send job is
    // completed by nothing but an announcement
    case SenderMoves(step) => FreshID(w.sendStore, step) && KeepsBinding(step, u.sendID) && !CompletesJob(step, u.sendID)
    // a routed state message, handled in one go
    case SenderHears(e, _) => e in w.routed
    // or a completion handled with a break between its checks and its last
    // step: completeTransferJob has found the job transferring, all reported
    case SenderChecks(e, id) =>
      && e in w.routed && AcceptsCompletion(w.sendStore, u.transfer.fromAgentID, e, id)
      && w.sendStore.jobs[id].status.Transferring? && w.sendStore.jobs[id].progressBytes == w.sendStore.jobs[id].fileSizeBytes
    case SenderCompletes(id) => id in w.checked
    // any operation of the receiver's daemon; the receive job is completed by
    // nothing but its live attempt
    case ReceiverMoves(step) =>
      FreshID(w.receiveStore, step) && KeepsBinding(step, u.receiveID) && !CompletesJob(step, u.receiveID)
    case ReceiverHears(e, _) => e in w.routed
    case Post(s, e) => Issued(u.usable, s) && !SpeaksForReceiver(u, s, e)
    case StartAttempt(_, _) => w.phase.Idle?
    case Deliver(d, _) => w.phase.Receiving? && UnforgedDelivery(u.config, u.log, d)
    case StopAttempt(_) => !w.phase.Copying?
    case CommitOpens => w.phase.GotManifest? && w.phase.manifest.totalBytes == ReceiveJobOf(u, w).fileSizeBytes
    case CommitCopies(_) => w.phase.Copying?
    // everything is copied, and describes the manifest, twice
    case CommitEnds(_) =>
      && w.phase.Copying? && w.phase.copied >= |PartialOf(u, w.disk)|
      && Describes(w.phase.committing, u.config.digest, PartialOf(u, w.disk))
    case CommitFails(_) => w.phase.Copying?
    case CompleteReceive => w.phase.Committed?
    case Announce => w.phase.Announcing?
  }

  function PartialOf(u: Setup, d: Disk): Bytes {
    if PartialPath(u.destination) in d then d[PartialPath(u.destination)] else []
  }

  ghost function Hear(s: Store, agent: string, e: Envelope, alwaysOn: bool): Store {
    if alwaysOn then HandleAlwaysOn(s, agent, e) else HandleState(s, agent, e).0
  }

  // What a move does.
  ghost function After(u: Setup, w: World, move: Move): World
    requires u.transfer.toAgent.Some?
  {
    match move
    case SenderMoves(step) => w.(sendStore := Take(w.sendStore, step).0)
    case SenderHears(e, alwaysOn) => w.(sendStore := Hear(w.sendStore, u.transfer.fromAgentID, e, alwaysOn))
    case SenderChecks(_, id) => w.(checked := w.checked + {id})
    case SenderCompletes(id) => w.(sendStore := Apply(w.sendStore, id, Complete).0, checked := w.checked - {id})
    case ReceiverMoves(step) => w.(receiveStore := Take(w.receiveStore, step).0)
    case ReceiverHears(e, alwaysOn) => w.(receiveStore := Hear(w.receiveStore, u.transfer.toAgent.value, e, alwaysOn))
    case Post(s, e) => Routed(u, w, s, e)
    case StartAttempt(keep, nextSeq) =>
      var file := PartialOf(u, w.disk);
      var a := Attempt(keep, nextSeq, []);
      w.(disk := w.disk[PartialPath(u.destination) := Kept(file, a)], phase := Receiving(AttemptStart(file, a)))
    case Deliver(d, reported) =>
      if !w.phase.Receiving? then w
      else
        var (t, r) := AcceptStep(u.config, w.phase.rx, d.message, d.io);
        var added := if w.phase.rx.written <= t.written then t.written[|w.phase.rx.written|..] else [];
        var told := if r == Ok(None) && reported then Routed(u, w, TokenSocket(u.transfer.toAgent.value), Report(u, t.offset)) else w;
        told.(disk := w.disk[PartialPath(u.destination) := PartialOf(u, w.disk) + added],
              phase := if r.Err? then Idle else if r.value.Some? then GotManifest(r.value.value) else Receiving(t))
    case StopAttempt(remove) =>
      w.(disk := if remove then w.disk - {PartialPath(u.destination)} else w.disk, phase := Idle)
    case CommitOpens =>
      if !w.phase.GotManifest? then w
      else if PartialPath(u.destination) !in w.disk || u.destination in w.disk then w.(phase := Idle)
      else w.(disk := CopyOf(w.disk, PartialPath(u.destination), u.destination, 0), phase := Copying(w.phase.manifest, 0))
    case CommitCopies(more) =>
      if !w.phase.Copying? || PartialPath(u.destination) !in w.disk then w
      else
        var n := w.phase.copied + more;
        w.(disk := CopyOf(w.disk, PartialPath(u.destination), u.destination, n), phase := w.phase.(copied := n))
    case CommitEnds(drop) =>
      (match drop
       case Dropped => w.(disk := w.disk - {PartialPath(u.destination)}, phase := Committed)
       case Skipped => w.(phase := Committed)
       case Refused => w.(phase := Idle))
    case CommitFails(cleanupFails) =>
      if !w.phase.Copying? then w
      else if cleanupFails then w.(leftBehind := Some(w.phase.copied), phase := Idle)
      else w.(disk := w.disk - {u.destination}, phase := Idle)
    case CompleteReceive =>
      // completeTransferJob takes a job that is already Completed as success
      var s := Apply(w.receiveStore, u.receiveID, Complete).0;
      w.(receiveStore := s,
         phase := if u.receiveID in s.jobs && s.jobs[u.receiveID].status.Completed? then Announcing else Idle)
    case Announce => Routed(u, w, TokenSocket(u.transfer.toAgent.value), Announcement(u)).(phase := Idle)
  }

  // The moves are what the program's own pieces do: a message heard is the
  // handler's work, and a completion checked and then performed is the handler's
  // in two parts;
  lemma HearingIsTheHandlers(u: Setup, w: World, e: Envelope, id: string)
    requires WellSet(u) && u.receiveID in w.receiveStore.jobs && Valid(w.sendStore)
    ensures After(u, w, SenderHears(e, false)) == w.(sendStore := HandleState(w.sendStore, u.transfer.fromAgentID, e).0)
    ensures After(u, w, SenderHears(e, true)) == w.(sendStore := HandleAlwaysOn(w.sendStore, u.transfer.fromAgentID, e))
    ensures After(u, w, ReceiverHears(e, false)) == w.(receiveStore := HandleState(w.receiveStore, u.transfer.toAgent.value, e).0)
    ensures After(u, w, ReceiverHears(e, true)) == w.(receiveStore := HandleAlwaysOn(w.receiveStore, u.transfer.toAgent.value, e))
    ensures Enabled(u, w, SenderChecks(e, id)) && e.transferID != "" ==>
      var checked := After(u, w, SenderChecks(e, id));
      && Enabled(u, checked, SenderCompletes(id))
      && After(u, checked, SenderCompletes(id)).sendStore == HandleState(w.sendStore, u.transfer.fromAgentID, e).0
  {
    hide Valid, HandleState, HandleAlwaysOn, HonestLog, AcceptStep, PartialPath, Routed, Apply;
    if Enabled(u, w, SenderChecks(e, id)) && e.transferID != "" {
      CheckedCompletion(w.sendStore, u.transfer.fromAgentID, e, id);
    }
  }

  // a report of an accepted chunk is routed, and an attempt stopped leaves its
  // partial file or not.
  lemma AttemptMoves(u: Setup, w: World, d: Delivery, remove: bool)
    requires u.transfer.toAgent.Some?
    ensures w.phase.Receiving? && AcceptStep(u.config, w.phase.rx, d.message, d.io).1 == Ok(None) ==>
      var position := AcceptStep(u.config, w.phase.rx, d.message, d.io).0.offset;
      && After(u, w, Deliver(d, true)).routed == Routed(u, w, TokenSocket(u.transfer.toAgent.value), Report(u, position)).routed
      && After(u, w, Deliver(d, false)).routed == w.routed
    ensures var stopped := After(u, w, StopAttempt(remove));
      && stopped.phase.Idle?
      && (PartialPath(u.destination) in stopped.disk <==> PartialPath(u.destination) in w.disk && !remove)
      && stopped.disk - {PartialPath(u.destination)} == w.disk - {PartialPath(u.destination)}
  {
    hide AcceptStep, PartialPath, Routed, Report;
  }

  lemma CheckedCompletion(s: Store, agent: string, e: Envelope, id: string)
    requires Valid(s) && AcceptsCompletion(s, agent, e, id) && e.transferID != ""
    requires s.jobs[id].status.Transferring? && s.jobs[id].progressBytes == s.jobs[id].fileSizeBytes
    ensures HandleState(s, agent, e).0 == Apply(s, id, Complete).0
  {
    hide Valid, Apply;
    FindIsOrderIndependent(s, e.transferID, id, id);
    IDOf(s, id);
    var (t, r) := Apply(s, id, Complete);
    assert RunOps(s, id, [Complete]) == (if r.Err? then (t, Some(r.error)) else RunOps(t, id, [Complete][1..]));
    assert [Complete][1..] == [];
    NothingToDo(t, id);
  }

  // Both daemons know the transfer; nothing has been routed or received yet.
  ghost predicate Initial(u: Setup, w: World)
    requires u.transfer.toAgent.Some? && u.transfer.id in u.sources
  {
    && Valid(w.sendStore) && Valid(w.receiveStore)
    && u.sendID in w.sendStore.jobs && u.receiveID in w.receiveStore.jobs
    && w.sendStore.jobs[u.sendID].transferID == u.transfer.id
    && w.receiveStore.jobs[u.receiveID].transferID == u.transfer.id
    && w.receiveStore.jobs[u.receiveID].destinationPath == u.destination
    && w.receiveStore.jobs[u.receiveID].direction.Receive?
    // the declared size: the sender streams no source of another size
    && w.receiveStore.jobs[u.receiveID].fileSizeBytes == |Source(u)|
    && !w.sendStore.jobs[u.sendID].status.Completed?
    && !w.receiveStore.jobs[u.receiveID].status.Completed?
    && w.routed == {} && w.checked == {} && w.disk == u.disk0 && w.leftBehind.None? && w.phase.Idle?
  }

  // The destination was committed where nothing was, and is the source.
  ghost predicate Delivered(u: Setup, d: Disk)
    requires u.transfer.id in u.sources
  {
    u.destination !in u.disk0 && u.destination in d && d[u.destination] == Source(u)
  }

  // Everything that was on the receiver's disk is still there; what is new is
  // the partial file and the destination.
  ghost predicate GoodDisk(u: Setup, d: Disk)
    requires u.transfer.id in u.sources
  {
    && (forall p :: p in u.disk0 ==> p in d && d[p] == u.disk0[p])
    && (forall p :: p in d ==> p in u.disk0 || p == PartialPath(u.destination) || p == u.destination)
    && PartialOf(u, d) <= Source(u)
  }

  // A beginning of the source, all of it if n is large enough.
  function Beginning(u: Setup, n: nat): Bytes
    requires u.transfer.id in u.sources
  {
    Source(u)[..if n < |Source(u)| then n else |Source(u)|]
  }

  // A new destination holds what the commit under way has copied, or what a
  // failed one left behind, or else the whole source.
  ghost predicate GoodDestination(u: Setup, d: Disk, phase: Phase, leftBehind: Option<nat>)
    requires u.transfer.id in u.sources
  {
    && (phase.Copying? ==> u.destination in d && u.destination !in u.disk0 && leftBehind.None?)
    && (leftBehind.Some? ==> u.destination in d && u.destination !in u.disk0 && !phase.Committed? && !phase.Announcing?)
    && (u.destination in d && u.destination !in u.disk0 ==>
          d[u.destination] == (if phase.Copying? then Beginning(u, phase.copied)
                               else if leftBehind.Some? then Beginning(u, leftBehind.value)
                               else Source(u)))
  }

  ghost predicate GoodPhase(u: Setup, d: Disk, phase: Phase)
    requires u.transfer.id in u.sources
  {
    match phase
    case Idle => true
    case Receiving(rx) =>
      && PartialPath(u.destination) in d && rx.hashed == PartialOf(u, d)
      && rx.offset == |rx.hashed| && !rx.failed && !rx.complete
    case GotManifest(m) => PartialPath(u.destination) in d && Describes(m, u.config.digest, PartialOf(u, d))
    case Copying(m, _) => PartialPath(u.destination) in d && PartialOf(u, d) == Source(u) && Describes(m, u.config.digest, Source(u))
    case Committed => Delivered(u, d)
    case Announcing => Delivered(u, d)
  }

  ghost predicate GoodJobs(u: Setup, w: World)
    requires u.transfer.id in u.sources && u.transfer.toAgent.Some?
  {
    && Valid(w.sendStore) && Valid(w.receiveStore)
    && u.sendID in w.sendStore.jobs && u.receiveID in w.receiveStore.jobs
    && w.sendStore.jobs[u.sendID].transferID == u.transfer.id
    && w.receiveStore.jobs[u.receiveID].transferID == u.transfer.id
    && w.receiveStore.jobs[u.receiveID].destinationPath == u.destination
    && w.receiveStore.jobs[u.receiveID].direction.Receive?
    && w.receiveStore.jobs[u.receiveID].fileSizeBytes == |Source(u)|
  }

  ghost predicate CompletionIsHonest(u: Setup, w: World)
    requires u.transfer.id in u.sources && u.transfer.toAgent.Some?
    requires u.sendID in w.sendStore.jobs && u.receiveID in w.receiveStore.jobs
  {
    && (w.receiveStore.jobs[u.receiveID].status.Completed? ==> Delivered(u, w.disk))
    && (w.phase.Copying? || w.leftBehind.Some? ==> !w.receiveStore.jobs[u.receiveID].status.Completed?)
    && (w.phase.Announcing? ==> w.receiveStore.jobs[u.receiveID].status.Completed?)
    && (forall e :: e in w.routed && e.messageType.TransferCompleted? && e.transferID == u.transfer.id ==>
          w.receiveStore.jobs[u.receiveID].status.Completed?)
    && (u.sendID in w.checked ==> w.receiveStore.jobs[u.receiveID].status.Completed?)
    && (w.sendStore.jobs[u.sendID].status.Completed? ==> w.receiveStore.jobs[u.receiveID].status.Completed?)
  }

  ghost predicate Good(u: Setup, w: World) {
    && WellSet(u) && GoodJobs(u, w) && GoodDisk(u, w.disk) && GoodPhase(u, w.disk, w.phase)
    && GoodDestination(u, w.disk, w.phase, w.leftBehind) && CompletionIsHonest(u, w)
  }

  // ---- The invariant, move by move ----

  lemma InitialIsGood(u: Setup, w: World)
    requires WellSet(u) && Initial(u, w)
    ensures Good(u, w)
  {
    hide Valid;
  }

  // A store step that neither rebinds nor completes a job leaves its binding,
  // size and destination alone, and completed exactly when it was.
  lemma BoundJobStays(s: Store, step: Step, id: string)
    requires Valid(s) && FreshID(s, step) && id in s.jobs && KeepsBinding(step, id)
    ensures var t := Take(s, step).0;
      && Valid(t) && id in t.jobs
      && t.jobs[id].transferID == s.jobs[id].transferID
      && t.jobs[id].fileSizeBytes == s.jobs[id].fileSizeBytes
      && t.jobs[id].destinationPath == s.jobs[id].destinationPath
      && t.jobs[id].direction == s.jobs[id].direction
      && (s.jobs[id].status.Completed? ==> t.jobs[id].status.Completed?)
      && (t.jobs[id].status.Completed? ==> s.jobs[id].status.Completed? || CompletesJob(step, id))
  {
    hide Take, Mutate, Valid;
    TakeKeepsValid(s, step);
    JobsAfter(s, step);
    if s.jobs[id].status.Completed? { TerminalStep(s, step, id); }
    if step.On? && step.jobID == id && Take(s, step).1.Ok? { MutateKeepsBinding(s.jobs, s.jobs[id], step.op); }
  }

  lemma MutateKeepsBinding(jobs: map<string, Job>, job: Job, op: JobOp)
    requires Mutate(jobs, job, op).Ok? && !op.AttachTransfer?
    ensures var j := Mutate(jobs, job, op).value;
      && j.transferID == job.transferID && j.fileSizeBytes == job.fileSizeBytes
      && j.destinationPath == job.destinationPath && j.direction == job.direction
      && (j.status.Completed? ==> job.status.Completed? || op.Complete?)
  {
  }

  lemma SenderMoveIsGood(u: Setup, w: World, step: Step)
    requires Good(u, w) && Enabled(u, w, SenderMoves(step))
    ensures Good(u, After(u, w, SenderMoves(step)))
  {
    hide Take, Valid, GoodDisk, GoodPhase, GoodDestination, Delivered, WellSet;
    BoundJobStays(w.sendStore, step, u.sendID);
  }

  // A job after a message has been heard: bound as before, and completed only
  // if it was, or by an accepted completion.
  ghost predicate HeardWell(s: Store, t: Store, agent: string, e: Envelope, id: string)
    requires id in s.jobs
  {
    && Valid(t) && id in t.jobs
    && t.jobs[id].transferID == s.jobs[id].transferID && t.jobs[id].direction == s.jobs[id].direction
    && t.jobs[id].fileSizeBytes == s.jobs[id].fileSizeBytes
    && t.jobs[id].destinationPath == s.jobs[id].destinationPath
    && (s.jobs[id].status.Completed? ==> t.jobs[id].status.Completed?)
    && (t.jobs[id].status.Completed? ==> s.jobs[id].status.Completed? || AcceptsCompletion(s, agent, e, id))
  }

  lemma HandledJobStays(s: Store, agent: string, e: Envelope, id: string)
    requires Valid(s) && id in s.jobs
    ensures HeardWell(s, HandleState(s, agent, e).0, agent, e, id)
  {
    hide Follows, Valid;
    OnlyThePeerCompletes(s, agent, e, id);
    var t := HandleState(s, agent, e).0;
    if t != s {
      var other := FindByTransferID(s, e.transferID).value.id;
      FoundUnderItsID(s, e.transferID);
      FollowsMovesOnly(s, other, e);
      if id != other {
        assert id in s.jobs - {other} && (s.jobs - {other})[id] == s.jobs[id] && (t.jobs - {other})[id] == t.jobs[id];
      } else if s.jobs[id].status.Completed? {
        FollowsKeepCompleted(s, id, e);
      }
    }
  }

  lemma HeardJobStays(s: Store, agent: string, e: Envelope, alwaysOn: bool, id: string)
    requires Valid(s) && id in s.jobs
    ensures HeardWell(s, Hear(s, agent, e, alwaysOn), agent, e, id)
  {
    hide HandleState, Valid, RunOps;
    HandledJobStays(s, agent, e, id);
    var t := HandleState(s, agent, e).0;
    if alwaysOn && Hear(s, agent, e, alwaysOn) != t {
      var other := FindByTransferID(t, e.transferID).value.id;
      RefusalFails(t, other, id);
    }
  }

  // Failing one job completes none, and takes none out of Completed.
  lemma RefusalFails(s: Store, other: string, id: string)
    requires Valid(s) && other in s.jobs && id in s.jobs
    ensures var t := FailOutcome(s, other, "state message refused").0;
      && Valid(t) && id in t.jobs
      && t.jobs[id].transferID == s.jobs[id].transferID && t.jobs[id].direction == s.jobs[id].direction
      && t.jobs[id].fileSizeBytes == s.jobs[id].fileSizeBytes && t.jobs[id].destinationPath == s.jobs[id].destinationPath
      && (s.jobs[id].status.Completed? <==> t.jobs[id].status.Completed?)
  {
    hide RunOps, Valid;
    var ops := [Fail("state message refused")];
    RunOpsMoveOnly(s, other, ops);
    var t := RunOps(s, other, ops).0;
    if s.jobs[other].status.IsTerminal() { OpsRefusedOnTerminal(s, other, ops); }
    if t != s && id != other {
      assert id in s.jobs - {other} && (s.jobs - {other})[id] == s.jobs[id] && (t.jobs - {other})[id] == t.jobs[id];
    }
  }

  lemma SenderHearingIsGood(u: Setup, w: World, e: Envelope, alwaysOn: bool)
    requires Good(u, w) && Enabled(u, w, SenderHears(e, alwaysOn))
    ensures Good(u, After(u, w, SenderHears(e, alwaysOn)))
  {
    hide Hear, Valid, GoodDisk, GoodPhase, GoodDestination, Delivered, WellSet;
    HeardJobStays(w.sendStore, u.transfer.fromAgentID, e, alwaysOn, u.sendID);
  }

  lemma ReceiverHearingIsGood(u: Setup, w: World, e: Envelope, alwaysOn: bool)
    requires Good(u, w) && Enabled(u, w, ReceiverHears(e, alwaysOn))
    ensures Good(u, After(u, w, ReceiverHears(e, alwaysOn)))
  {
    hide Hear, Valid, GoodDisk, GoodPhase, GoodDestination, Delivered, HonestLog;
    HeardJobStays(w.receiveStore, u.transfer.toAgent.value, e, alwaysOn, u.receiveID);
  }

  lemma SenderCheckIsGood(u: Setup, w: World, e: Envelope, id: string)
    requires Good(u, w) && Enabled(u, w, SenderChecks(e, id))
    ensures Good(u, After(u, w, SenderChecks(e, id)))
  {
    hide Valid, GoodDisk, GoodPhase, GoodDestination, Delivered, WellSet;
  }

  lemma SenderCompletionIsGood(u: Setup, w: World, id: string)
    requires Good(u, w) && Enabled(u, w, SenderCompletes(id))
    ensures Good(u, After(u, w, SenderCompletes(id)))
  {
    hide Apply, Valid, GoodDisk, GoodPhase, GoodDestination, Delivered, WellSet;
    BoundJobStays(w.sendStore, On(id, Complete), u.sendID);
  }

  lemma ReceiverMoveIsGood(u: Setup, w: World, step: Step)
    requires Good(u, w) && Enabled(u, w, ReceiverMoves(step))
    ensures Good(u, After(u, w, ReceiverMoves(step)))
  {
    hide Take, Valid, GoodDisk, GoodPhase, GoodDestination, Delivered, WellSet;
    BoundJobStays(w.receiveStore, step, u.receiveID);
  }

  // No one but the receiver's daemon gets a completion of this transfer routed.
  lemma PostIsGood(u: Setup, w: World, s: Socket, e: Envelope)
    requires Good(u, w) && Enabled(u, w, Post(s, e))
    ensures Good(u, After(u, w, Post(s, e)))
  {
    hide Valid, GoodDisk, GoodPhase, GoodDestination, Delivered, ValidateEnvelope, Authorize;
    if Authorize(u.usable, s, e).None? && e.messageType.TransferCompleted? && e.transferID == u.transfer.id {
      OnlyTheRecipientAnnouncesCompletion(u.usable, s, e);
    }
  }

  lemma AnnounceIsGood(u: Setup, w: World)
    requires Good(u, w) && w.phase.Announcing?
    ensures Good(u, After(u, w, Announce))
  {
    hide Valid, GoodDisk, Delivered, ValidateEnvelope, Authorize, WellSet;
  }

  lemma CompleteReceiveIsGood(u: Setup, w: World)
    requires Good(u, w) && w.phase.Committed?
    ensures Good(u, After(u, w, CompleteReceive))
  {
    hide Apply, Valid, GoodDisk, Delivered, WellSet;
    BoundJobStays(w.receiveStore, On(u.receiveID, Complete), u.receiveID);
  }

  // ---- Moves that touch the disk ----

  // Writing the partial file leaves everything else on the disk.
  lemma WritingPartial(u: Setup, d: Disk, part: Bytes)
    requires WellSet(u) && GoodDisk(u, d) && part <= Source(u)
    ensures var t := d[PartialPath(u.destination) := part];
      && GoodDisk(u, t) && PartialOf(u, t) == part && (Delivered(u, d) ==> Delivered(u, t))
      && (u.destination in t <==> u.destination in d) && (u.destination in d ==> t[u.destination] == d[u.destination])
  {
    assert |PartialPath(u.destination)| > |u.destination|;
  }

  lemma StartAttemptIsGood(u: Setup, w: World, keep: nat, nextSeq: uint64)
    requires Good(u, w) && w.phase.Idle?
    ensures Good(u, After(u, w, StartAttempt(keep, nextSeq)))
  {
    hide Valid, Delivered, GoodDisk, HonestLog;
    var file := PartialOf(u, w.disk);
    var kept := Kept(file, Attempt(keep, nextSeq, []));
    assert file <= Source(u) && |Source(u)| < TWO_TO_63 by { DiskMeans(u, w.disk); }
    assert kept <= file;
    WritingPartial(u, w.disk, kept);
  }

  lemma DiskMeans(u: Setup, d: Disk)
    requires WellSet(u) && GoodDisk(u, d)
    ensures PartialOf(u, d) <= Source(u) && |Source(u)| < TWO_TO_63
  {
  }

  // What a delivery adds to the partial file is the source's own next bytes.
  lemma DeliveryAddsSource(c: RxConfig, sources: map<string, Bytes>, log: set<SealedChunk>, rx: RxState, part: Bytes, d: Delivery)
    requires c.DemandsEncryption() && HonestLog(sources, log) && UnforgedDelivery(c, log, d)
    requires c.transferID in sources && part <= sources[c.transferID] && rx.offset == |part|
    ensures var t := AcceptStep(c, rx, d.message, d.io).0;
      rx.written <= t.written && part + t.written[|rx.written|..] <= sources[c.transferID]
  {
    hide AcceptStep, UnforgedDelivery, HonestLog, ChunkPlaintext;
    var t := AcceptStep(c, rx, d.message, d.io).0;
    WrittenEffect(c, rx, d.message, d.io);
    if t.written == rx.written {
      assert part + [] == part;
    } else {
      OpenedChunkIsSlice(c, sources, log, d);
      var p := ChunkPlaintext(c, d.message.frame).value;
      ExtendPrefix(sources[c.transferID], part, p, Taken(d.io, p));
      assert t.written[|rx.written|..] == p[..Taken(d.io, p)];
    }
  }

  // And leaves the receiver where its file says, or at the manifest of it.
  lemma DeliveryMovesPhase(c: RxConfig, rx: RxState, d: Delivery, part: Bytes)
    requires rx.hashed == part && rx.offset == |part| && !rx.failed && !rx.complete
    ensures var (t, r) := AcceptStep(c, rx, d.message, d.io);
      && rx.written <= t.written
      && var grown := part + t.written[|rx.written|..];
         && (r == Ok(None) && |grown| < TWO_TO_63 ==>
               t.hashed == grown && t.offset == |t.hashed| && !t.failed && !t.complete)
         && (r.Ok? && r.value.Some? ==>
               grown == part && r.value.value.totalBytes == |part| && r.value.value.sha256Hex == c.digest(part))
  {
    hide AcceptStep, ChunkPlaintext;
    AcceptEffect(c, rx, d.message, d.io);
    ManifestEffect(c, rx, d.message, d.io);
    var (t, r) := AcceptStep(c, rx, d.message, d.io);
    if r == Ok(None) {
      assert t.written[|rx.written|..] == ChunkPlaintext(c, d.message.frame).value;
    } else if r.Ok? {
      assert t.written[|rx.written|..] == [];
    }
  }

  // A report is no announcement.
  lemma ReportIsHarmless(u: Setup, w: World, bytes: int)
    requires WellSet(u)
    ensures var t := Routed(u, w, TokenSocket(u.transfer.toAgent.value), Report(u, bytes));
      && t == w.(routed := t.routed)
      && (forall e :: e in t.routed && e.messageType.TransferCompleted? ==> e in w.routed)
  {
    hide HonestLog, ValidateEnvelope, Authorize;
  }

  lemma DeliverIsGood(u: Setup, w: World, d: Delivery, reported: bool)
    requires Good(u, w) && Enabled(u, w, Deliver(d, reported))
    ensures Good(u, After(u, w, Deliver(d, reported)))
  {
    hide AcceptStep, UnforgedDelivery, HonestLog, Valid, GoodDisk, Delivered, Routed, Report;
    var part := PartialOf(u, w.disk);
    DiskMeans(u, w.disk);
    DeliveryAddsSource(u.config, u.sources, u.log, w.phase.rx, part, d);
    DeliveryMovesPhase(u.config, w.phase.rx, d, part);
    var t := AcceptStep(u.config, w.phase.rx, d.message, d.io).0;
    WritingPartial(u, w.disk, part + t.written[|w.phase.rx.written|..]);
    ReportIsHarmless(u, w, t.offset);
  }

  lemma StopAttemptIsGood(u: Setup, w: World, remove: bool)
    requires Good(u, w) && Enabled(u, w, StopAttempt(remove))
    ensures Good(u, After(u, w, StopAttempt(remove)))
  {
    hide Valid, HonestLog;
    assert |PartialPath(u.destination)| > |u.destination|;
  }

  // Writing a beginning of the source to a destination that was not there.
  lemma WritingDestination(u: Setup, d: Disk, n: nat)
    requires WellSet(u) && GoodDisk(u, d) && u.destination !in u.disk0
    requires PartialPath(u.destination) in d && PartialOf(u, d) == Source(u)
    ensures var t := CopyOf(d, PartialPath(u.destination), u.destination, n);
      && GoodDisk(u, t) && PartialPath(u.destination) in t && PartialOf(u, t) == Source(u)
      && u.destination in t && t[u.destination] == Beginning(u, n)
  {
    assert |PartialPath(u.destination)| > |u.destination|;
  }

  // Removing what was not there at first.
  lemma RemovingNew(u: Setup, d: Disk, path: string)
    requires WellSet(u) && GoodDisk(u, d) && path !in u.disk0
    ensures GoodDisk(u, d - {path})
  {
  }

  lemma NotThereAtFirst(u: Setup, d: Disk)
    requires WellSet(u) && GoodDisk(u, d)
    ensures u.destination !in d ==> u.destination !in u.disk0
    ensures PartialPath(u.destination) !in u.disk0
  {
  }

  lemma CommitOpensGood(u: Setup, w: World)
    requires Good(u, w) && Enabled(u, w, CommitOpens)
    ensures Good(u, After(u, w, CommitOpens))
  {
    hide Valid, HonestLog, CopyOf, GoodDisk;
    DeclaredSize(u, w);
    DiskMeans(u, w.disk);
    assert PartialOf(u, w.disk) == Source(u);
    NotThereAtFirst(u, w.disk);
    if u.destination !in w.disk { WritingDestination(u, w.disk, 0); }
  }

  lemma CommitCopiesGood(u: Setup, w: World, more: nat)
    requires Good(u, w) && Enabled(u, w, CommitCopies(more))
    ensures Good(u, After(u, w, CommitCopies(more)))
  {
    hide Valid, HonestLog, CopyOf, GoodDisk, Delivered;
    WritingDestination(u, w.disk, w.phase.copied + more);
  }

  lemma CommitEndsGood(u: Setup, w: World, drop: Dropping)
    requires Good(u, w) && Enabled(u, w, CommitEnds(drop))
    ensures Good(u, After(u, w, CommitEnds(drop)))
  {
    hide Valid, HonestLog, GoodDisk;
    assert |PartialPath(u.destination)| > |u.destination|;
    NotThereAtFirst(u, w.disk);
    RemovingNew(u, w.disk, PartialPath(u.destination));
    assert Beginning(u, w.phase.copied) == Source(u);
  }

  lemma CommitFailsGood(u: Setup, w: World, cleanupFails: bool)
    requires Good(u, w) && Enabled(u, w, CommitFails(cleanupFails))
    ensures Good(u, After(u, w, CommitFails(cleanupFails)))
  {
    hide Valid, HonestLog, GoodDisk, Delivered;
    RemovingNew(u, w.disk, u.destination);
  }

  lemma DeclaredSize(u: Setup, w: World)
    requires Good(u, w)
    ensures w.receiveStore.jobs[u.receiveID].fileSizeBytes == |Source(u)|
  {
    hide Valid, HonestLog;
  }

  lemma MoveKeepsGood(u: Setup, w: World, move: Move)
    requires Good(u, w) && Enabled(u, w, move)
    ensures Good(u, After(u, w, move))
  {
    hide Good, After;
    match move
    case SenderMoves(step) => SenderMoveIsGood(u, w, step);
    case SenderHears(e, alwaysOn) => SenderHearingIsGood(u, w, e, alwaysOn);
    case SenderChecks(e, id) => SenderCheckIsGood(u, w, e, id);
    case SenderCompletes(id) => SenderCompletionIsGood(u, w, id);
    case ReceiverMoves(step) => ReceiverMoveIsGood(u, w, step);
    case ReceiverHears(e, alwaysOn) => ReceiverHearingIsGood(u, w, e, alwaysOn);
    case Post(s, e) => PostIsGood(u, w, s, e);
    case StartAttempt(keep, nextSeq) => StartAttemptIsGood(u, w, keep, nextSeq);
    case Deliver(d, reported) => DeliverIsGood(u, w, d, reported);
    case StopAttempt(remove) => StopAttemptIsGood(u, w, remove);
    case CommitOpens => CommitOpensGood(u, w);
    case CommitCopies(more) => CommitCopiesGood(u, w, more);
    case CommitEnds(drop) => CommitEndsGood(u, w, drop);
    case CommitFails(cleanupFails) => CommitFailsGood(u, w, cleanupFails);
    case CompleteReceive => CompleteReceiveIsGood(u, w);
    case Announce => AnnounceIsGood(u, w);
  }

  // ---- Runs ----

  ghost function Reached(u: Setup, w: World, moves: seq<Move>): World
    requires u.transfer.toAgent.Some?
  {
    if moves == [] then w else After(u, Reached(u, w, moves[..|moves| - 1]), moves[|moves| - 1])
  }

  ghost predicate Possible(u: Setup, w: World, moves: seq<Move>)
    requires WellSet(u)
  {
    moves != [] ==>
      && Possible(u, w, moves[..|moves| - 1])
      && var before := Reached(u, w, moves[..|moves| - 1]);
         u.receiveID in before.receiveStore.jobs && Enabled(u, before, moves[|moves| - 1])
  }

  lemma {:induction false} ReachedStaysGood(u: Setup, w: World, moves: seq<Move>)
    requires Good(u, w) && Possible(u, w, moves)
    ensures Good(u, Reached(u, w, moves))
    decreases |moves|
  {
    hide After, Enabled, GoodJobs, GoodDisk, GoodPhase, GoodDestination, CompletionIsHonest;
    if moves != [] {
      ReachedStaysGood(u, w, moves[..|moves| - 1]);
      MoveKeepsGood(u, Reached(u, w, moves[..|moves| - 1]), moves[|moves| - 1]);
    }
  }

  lemma ReachedIsGood(u: Setup, w: World, moves: seq<Move>)
    requires WellSet(u) && Initial(u, w) && Possible(u, w, moves)
    ensures Good(u, Reached(u, w, moves))
  {
    hide Initial, Good, Possible, Reached;
    InitialIsGood(u, w);
    ReachedStaysGood(u, w, moves);
  }

  // End-to-end completion. In every run of a sender's daemon, the server, any
  // network and a receiver's daemon, once the sender's job is Completed the
  // receiver's job is Completed, and the destination, which did not exist, is
  // the source, of the declared size; nothing that was there has changed.
  lemma CompletionIsEndToEnd(u: Setup, w: World, moves: seq<Move>)
    requires WellSet(u) && Initial(u, w) && Possible(u, w, moves)
    ensures var t := Reached(u, w, moves);
      && u.sendID in t.sendStore.jobs && u.receiveID in t.receiveStore.jobs
      && (forall p :: p in w.disk ==> p in t.disk && t.disk[p] == w.disk[p])
      && (t.sendStore.jobs[u.sendID].status.Completed? ==>
            && t.receiveStore.jobs[u.receiveID].status.Completed?
            && u.destination !in w.disk
            && u.destination in t.disk && t.disk[u.destination] == Source(u)
            && |t.disk[u.destination]| == t.receiveStore.jobs[u.receiveID].fileSizeBytes)
  {
    hide Reached, Possible, Valid, HonestLog, GoodDestination;
    ReachedIsGood(u, w, moves);
  }

  // What a new destination holds, at every time of every run: a beginning of
  // the source; and less than the whole of it exactly while a commit is still
  // copying, or after one that failed while copying could not be cleaned up.
  lemma DestinationExactly(u: Setup, w: World, moves: seq<Move>)
    requires WellSet(u) && Initial(u, w) && Possible(u, w, moves) && u.destination !in w.disk
    ensures var t := Reached(u, w, moves);
      && (u.destination in t.disk ==> t.disk[u.destination] <= Source(u))
      && (u.destination in t.disk && t.disk[u.destination] != Source(u) <==>
            || (t.phase.Copying? && t.phase.copied < |Source(u)|)
            || (t.leftBehind.Some? && t.leftBehind.value < |Source(u)|))
      && (forall p :: p in t.disk && p !in w.disk ==> p == u.destination || p == PartialPath(u.destination))
      && PartialOf(u, t.disk) <= Source(u)
  {
    hide Reached, Possible, Valid, HonestLog;
    ReachedIsGood(u, w, moves);
    var t := Reached(u, w, moves);
    BeginningsOfSource(u, if t.phase.Copying? then t.phase.copied else if t.leftBehind.Some? then t.leftBehind.value else |Source(u)|);
  }

  lemma BeginningsOfSource(u: Setup, n: nat)
    requires u.transfer.id in u.sources
    ensures Beginning(u, n) <= Source(u) && (Beginning(u, n) != Source(u) <==> n < |Source(u)|)
  {
    if n >= |Source(u)| { assert Beginning(u, n) == Source(u); }
  }

  lemma LeftBehindStays(u: Setup, w: World, move: Move)
    requires Good(u, w) && Enabled(u, w, move) && w.leftBehind.Some?
    ensures After(u, w, move).leftBehind == w.leftBehind
  {
    hide GoodJobs, GoodDisk, GoodPhase, CompletionIsHonest, HonestLog, Take, Hear, Apply, AcceptStep, CopyOf, ValidateEnvelope, Authorize;
  }

  // And a destination left behind ends the matter: from then on no commit can
  // begin, so neither job ever completes.
  lemma {:induction false} LeftBehindBlocks(u: Setup, w: World, moves: seq<Move>)
    requires Good(u, w) && w.leftBehind.Some? && Possible(u, w, moves)
    ensures var t := Reached(u, w, moves);
      && u.receiveID in t.receiveStore.jobs && u.sendID in t.sendStore.jobs
      && t.leftBehind == w.leftBehind
      && !t.receiveStore.jobs[u.receiveID].status.Completed? && !t.sendStore.jobs[u.sendID].status.Completed?
    decreases |moves|
  {
    hide After, Enabled, Valid, HonestLog, GoodDisk, GoodPhase, GoodDestination;
    ReachedStaysGood(u, w, moves);
    if moves != [] {
      var before := Reached(u, w, moves[..|moves| - 1]);
      ReachedStaysGood(u, w, moves[..|moves| - 1]);
      LeftBehindBlocks(u, w, moves[..|moves| - 1]);
      LeftBehindStays(u, before, moves[|moves| - 1]);
    }
  }

  // The manifest a finished stream returns describes all it has hashed.
  lemma FinishedManifest(c: TxConfig, source: Bytes, script: Script)
    requires Stream(c, source, script).result.Finished?
    ensures Stream(c, source, script).result.manifest == FinalManifest(c, Stream(c, source, script).state)
  {
    hide SendStep, ReadLoop, ValidateFrame;
  }

  // And with the sealing log made by the senders under this key, every
  // manifest a finished stream of this transfer returned is the committed
  // file's own, size and digest.
  lemma CompletedFileHasTheSendersDigest(u: Setup, w: World, moves: seq<Move>, uses: seq<Streaming>, k: nat)
    requires WellSet(u) && Initial(u, w) && Possible(u, w, moves)
    requires u.log == SealLog(u.sources, uses) && forall x :: x in uses ==> FaithfulUse(u.sources, x)
    requires k < |uses| && uses[k].config.transferID == u.transfer.id && uses[k].config.digest == u.config.digest
    requires Stream(uses[k].config, Source(u), uses[k].script).result.Finished?
    requires var t := Reached(u, w, moves);
             u.sendID in t.sendStore.jobs && t.sendStore.jobs[u.sendID].status.Completed?
    ensures var t := Reached(u, w, moves);
            var m := Stream(uses[k].config, Source(u), uses[k].script).result.manifest;
      && u.destination in t.disk
      && m.totalBytes == |t.disk[u.destination]| && m.sha256Hex == u.config.digest(t.disk[u.destination])
  {
    hide Stream, Reached, Possible, Initial;
    var use := uses[k];
    assert use in uses;
    CompletionIsEndToEnd(u, w, moves);
    FinishedManifest(use.config, Source(u), use.script);
    StreamSealsHonestly(use.config, Source(u), use.script);
  }

  lemma OpenedAndCopied(u: Setup, w: World, n: nat)
    requires u.transfer.toAgent.Some? && w.phase.GotManifest?
    requires PartialPath(u.destination) in w.disk && u.destination !in w.disk
    ensures After(u, After(u, w, CommitOpens), CommitCopies(n))
            == w.(disk := CopyOf(w.disk, PartialPath(u.destination), u.destination, n), phase := Copying(w.phase.manifest, n))
  {
    var part := PartialPath(u.destination);
    assert |part| > |u.destination|;
    var begun := After(u, w, CommitOpens);
    assert begun.disk - {u.destination} == w.disk && begun.disk[part] == w.disk[part];
    assert CopyOf(begun.disk, part, u.destination, n) == CopyOf(w.disk, part, u.destination, n);
  }

  lemma CopyRemoved(d: Disk, partial: string, destination: string, n: nat)
    requires partial in d && destination !in d
    ensures CopyOf(d, partial, destination, n) - {destination} == d
    ensures n >= |d[partial]| ==> CopyOf(d, partial, destination, n) == CopyOf(d, partial, destination, |d[partial]|)
  {
  }

  // Where the commit stands after each of its moves: it opens nothing that is
  // there already, it counts what it has copied, and it ends with the file
  // committed unless it failed or the partial file refused to go.
  lemma CommitOpensStand(u: Setup, w: World)
    requires u.transfer.toAgent.Some? && w.phase.GotManifest?
    ensures var part, begun := PartialPath(u.destination), After(u, w, CommitOpens);
      if part in w.disk && u.destination !in w.disk
      then begun.phase == Copying(w.phase.manifest, 0) && begun.disk == w.disk[u.destination := []]
      else begun.phase == Idle && begun.disk == w.disk
  {
    hide PartialPath;
  }

  lemma CopyingMovesStand(u: Setup, w: World, more: nat, drop: Dropping, cleanupFails: bool)
    requires u.transfer.toAgent.Some? && w.phase.Copying? && PartialPath(u.destination) in w.disk
    ensures var part, n := w.disk[PartialPath(u.destination)], w.phase.copied + more;
      var copied := After(u, w, CommitCopies(more));
      copied.phase == w.phase.(copied := n) && copied.disk == w.disk[u.destination := part[..if n <= |part| then n else |part|]]
    ensures After(u, w, CommitEnds(drop)).phase == if drop.Refused? then Idle else Committed
    ensures var failed := After(u, w, CommitFails(cleanupFails));
      failed.phase == Idle && failed.leftBehind == if cleanupFails then Some(w.phase.copied) else w.leftBehind
  {
    hide PartialPath;
  }

  // The commit's moves, taken one after another, are the commit.
  lemma CommitMovesAreTheCommit(u: Setup, w: World, n: nat, drop: Dropping, cleanupFails: bool)
    requires u.transfer.toAgent.Some? && w.phase.GotManifest?
    requires PartialPath(u.destination) in w.disk && u.destination !in w.disk
    ensures var part, m := PartialPath(u.destination), w.phase.manifest;
      var copied := After(u, After(u, w, CommitOpens), CommitCopies(n));
      && (n >= |w.disk[part]| && Describes(m, u.config.digest, w.disk[part]) ==>
            After(u, copied, CommitEnds(drop)).disk
            == CommitOutcome(w.disk, part, u.destination, m, u.config.digest, CommitFaults(None, false, false, false, drop)).0)
      && After(u, copied, CommitFails(cleanupFails)).disk
         == CommitOutcome(w.disk, part, u.destination, m, u.config.digest, CommitFaults(Some(n), false, false, cleanupFails, drop)).0
  {
    hide CopyOf, Describes, PartialPath;
    OpenedAndCopied(u, w, n);
    CopyRemoved(w.disk, PartialPath(u.destination), u.destination, n);
  }
}
