// Transfer offers arriving at a daemon (internal/agentd/backend_client.go,
// handleTransferOffer): the job store and the inbox stay in correspondence.
module Offers {
  import opened Wrappers
  import opened GoIntegers
  import opened ChunkCrypto
  import opened Files
  import opened Jobs
  import opened JobRuns
  import opened JobOrder
  import opened JobDrivers
  import opened InboxReservations

  datatype ReceivePolicy = ReceivePolicy(denyAll: bool, allowedFromAgentIDs: seq<string>, maxFileSizeBytes: int64)

  datatype Decision = Accept | Deny(reason: string)

  // What the offered key envelope opens to with this agent's private key.
  datatype KeyEnvelope = KeyEnvelope(key: Option<TransferKey>)

  datatype OfferPayload = OfferPayload(fileName: string, fileSizeBytes: int64, keyEnvelope: Option<KeyEnvelope>)

  // An offer envelope, as far as it matters here. A missing payload decodes to
  // the empty one; an unreadable one is None.
  datatype Offer = Offer(transferID: string, fromAgentID: string, toAgentID: string, payload: Option<OfferPayload>)

  datatype OfferError =
    | OfferRecipientMismatch | MalformedPayload | OfferDeniedByPolicy | OfferKeyRequired | OfferKeyUnreadable
    | NotReserved(inboxError: InboxError) | NotStored(jobError: JobError) | SendFailed

  // The daemon handling offers: who it is, whether it has a private key, its
  // policy, and where its inbox is.
  datatype OfferDesk = OfferDesk(agentID: string, hasPrivateKey: bool, policy: ReceivePolicy, inboxDir: string)

  // The rest of the world during one offer: the id drawn for a new job, how
  // recording the reservation goes, and the signaling channel, if there is one
  // and it takes the answer.
  datatype Circumstance = Circumstance(newID: string, text: Bytes, faults: ReserveFaults, channel: Option<bool>)

  datatype Desk = Desk(store: Store, inbox: InboxState, disk: Disk)

  // What the policy lets in: a sender it allows, a size within its limit.
  predicate Permitted(p: ReceivePolicy, fromAgentID: string, fileSizeBytes: int) {
    && !p.denyAll
    && (p.allowedFromAgentIDs == [] || fromAgentID in p.allowedFromAgentIDs)
    && (p.maxFileSizeBytes <= 0 || fileSizeBytes <= p.maxFileSizeBytes)
  }

  function Evaluate(p: ReceivePolicy, fromAgentID: string, o: OfferPayload): (d: Decision)
    ensures d.Accept? <==> Permitted(p, fromAgentID, o.fileSizeBytes)
  {
    if p.denyAll then Deny("receive_policy_denies_all")
    else if |p.allowedFromAgentIDs| > 0 && fromAgentID !in p.allowedFromAgentIDs then Deny("sender_not_allowed")
    else if p.maxFileSizeBytes > 0 && o.fileSizeBytes > p.maxFileSizeBytes then Deny("file_size_exceeds_receive_policy")
    else Accept
  }

  // sendOfferDecision: the answer that goes out, and the error, if any.
  function Answered(io: Circumstance, d: Decision): (Option<Decision>, Option<OfferError>) {
    if io.channel.None? then (None, None)
    else if io.channel.value then (Some(d), None)
    else (None, Some(SendFailed))
  }

  datatype OfferResult = OfferResult(answer: Option<Decision>, error: Option<OfferError>)

  function Refusal(io: Circumstance, reason: string, silent: OfferError): OfferResult {
    var (a, e) := Answered(io, Deny(reason));
    OfferResult(a, if e.Some? then e else if io.channel.Some? then None else Some(silent))
  }

  function Welcome(io: Circumstance): OfferResult {
    var (a, e) := Answered(io, Accept); OfferResult(a, e)
  }

  function InputOf(o: Offer, p: OfferPayload, destination: string): ReceiveInput {
    ReceiveInput(o.transferID, o.fromAgentID, p.fileName, p.fileSizeBytes, destination)
  }

  // What follows a successful reservation: create the job, attach the key,
  // accept.
  function Record(k: OfferDesk, s: Store, o: Offer, p: OfferPayload, key: TransferKey, destination: string, io: Circumstance)
    : (Store, OfferResult)
  {
    var (created, r) := CreateReceive(s, io.newID, InputOf(o, p, destination));
    if r.Err? then (created, OfferResult(None, Some(NotStored(r.error))))
    else
      var (keyed, r2) := Apply(created, io.newID, AttachTransferKey(key));
      if r2.Err? then (keyed, OfferResult(None, Some(NotStored(r2.error))))
      else
        var (accepted, r3) := Apply(keyed, io.newID, MarkAccepted);
        if r3.Err? then (accepted, OfferResult(None, Some(NotStored(r3.error)))) else (accepted, Welcome(io))
  }

  ghost function HandleOffer(k: OfferDesk, w: Desk, o: Offer, io: Circumstance): (Desk, OfferResult) {
    if o.toAgentID != k.agentID then (w, OfferResult(None, Some(OfferRecipientMismatch)))
    else if FindByTransferID(w.store, o.transferID).Some? then (w, Welcome(io))
    else if o.payload.None? then (w, OfferResult(None, Some(MalformedPayload)))
    else
      var p := o.payload.value;
      var d := Evaluate(k.policy, o.fromAgentID, p);
      if d.Deny? then (w, Refusal(io, d.reason, OfferDeniedByPolicy))
      else if p.keyEnvelope.None? then (w, Refusal(io, "transfer_key_required", OfferKeyRequired))
      else if !k.hasPrivateKey then (w, OfferResult(None, Some(OfferKeyRequired)))
      else if p.keyEnvelope.value.key.None? then (w, OfferResult(None, Some(OfferKeyUnreadable)))
      else
        var (inbox, disk, entry) :=
          ReserveStep(k.inboxDir, w.inbox, w.disk, InboxOffer(o.transferID, o.fromAgentID, p.fileName, p.fileSizeBytes),
                      io.text, io.faults);
        if entry.Err? then (w.(inbox := inbox, disk := disk), OfferResult(None, Some(NotReserved(entry.error))))
        else
          var (store, r) := Record(k, w.store, o, p, p.keyEnvelope.value.key.value, entry.value.destinationPath, io);
          (Desk(store, inbox, disk), r)
  }

  // The handler over the daemon's shared objects, call by call.
  method HandleTransferOffer(k: OfferDesk, m: JobManager, inbox: Inbox, fs: FileStore, o: Offer, io: Circumstance)
    returns (r: OfferResult)
    requires Valid(m.State()) && inbox.root == k.inboxDir
    requires 2 * |fs.files.Keys| + |inbox.entries| < TWO_TO_63
    modifies m, inbox, fs
    ensures (Desk(m.State(), inbox.State(), fs.files), r)
            == HandleOffer(k, old(Desk(m.State(), inbox.State(), fs.files)), o, io)
    ensures o.transferID != "" && io.newID != "" && io.newID !in old(m.jobs) ==>
      AnsweredProperly(k, old(m.State()), m.State(), o, io.newID, io.channel, r)
  {
    hide Valid, ReserveStep, Apply, CreateReceive, AnsweredProperly;
    if o.transferID != "" && io.newID != "" && io.newID !in m.jobs {
      OfferIsAnswered(k, Desk(m.State(), inbox.State(), fs.files), o, io);
    }
    if o.toAgentID != k.agentID { return OfferResult(None, Some(OfferRecipientMismatch)); }
    var found := FindJob(m, o.transferID);
    if found.Some? { return Welcome(io); }
    if o.payload.None? { return OfferResult(None, Some(MalformedPayload)); }
    var p := o.payload.value;
    var d := Evaluate(k.policy, o.fromAgentID, p);
    if d.Deny? { return Refusal(io, d.reason, OfferDeniedByPolicy); }
    if p.keyEnvelope.None? { return Refusal(io, "transfer_key_required", OfferKeyRequired); }
    if !k.hasPrivateKey { return OfferResult(None, Some(OfferKeyRequired)); }
    var unwrapped := p.keyEnvelope.value.key;
    if unwrapped.None? { return OfferResult(None, Some(OfferKeyUnreadable)); }
    var entry := inbox.Reserve(fs, InboxOffer(o.transferID, o.fromAgentID, p.fileName, p.fileSizeBytes), io.text, io.faults);
    if entry.Err? { return OfferResult(None, Some(NotReserved(entry.error))); }
    var job := m.CreateReceiveJob(io.newID, InputOf(o, p, entry.value.destinationPath));
    if job.Err? { return OfferResult(None, Some(NotStored(job.error))); }
    assert job.value.id == io.newID by { CreatedID(old(m.State()), io.newID, InputOf(o, p, entry.value.destinationPath)); }
    job := m.Do(job.value.id, AttachTransferKey(unwrapped.value));
    if job.Err? { return OfferResult(None, Some(NotStored(job.error))); }
    job := m.Do(io.newID, MarkAccepted);
    if job.Err? { return OfferResult(None, Some(NotStored(job.error))); }
    return Welcome(io);
  }

  lemma CreatedID(s: Store, id: string, i: ReceiveInput)
    ensures CreateReceive(s, id, i).1.Ok? ==> CreateReceive(s, id, i).1.value.id == id
  {
  }

  // ---- Correspondence ----

  predicate Matches(job: Job, e: InboxEntry) {
    && job.direction.Receive? && job.transferID == e.transferID && job.fromAgentID == e.fromAgentID
    && job.fileName == e.fileName && job.fileSizeBytes == e.fileSizeBytes && job.destinationPath == e.destinationPath
  }

  ghost predicate HasEntry(job: Job, entries: seq<InboxEntry>) { exists e :: e in entries && Matches(job, e) }

  ghost predicate HasJob(jobs: map<string, Job>, e: InboxEntry) { exists id :: id in jobs && Matches(jobs[id], e) }

  // Receive jobs and inbox entries, one to one by transfer id (job ids of one
  // transfer are unique in a valid store).
  ghost predicate Corresponds(jobs: map<string, Job>, entries: seq<InboxEntry>) {
    && (forall id :: id in jobs && jobs[id].direction.Receive? ==> HasEntry(jobs[id], entries))
    && (forall e :: e in entries ==> HasJob(jobs, e))
    && (forall i, j :: 0 <= i < j < |entries| ==> entries[i].transferID != entries[j].transferID)
  }

  lemma RecordEffect(k: OfferDesk, s: Store, o: Offer, p: OfferPayload, key: TransferKey, destination: string, io: Circumstance)
    requires Valid(s) && io.newID != "" && io.newID !in s.jobs
    requires CheckReceive(s, InputOf(o, p, destination)).None?
    ensures var (t, r) := Record(k, s, o, p, key, destination, io);
      && Valid(t) && io.newID in t.jobs && t.jobs == s.jobs[io.newID := t.jobs[io.newID]]
      && var j := t.jobs[io.newID];
         var blank := ReceiveJob(io.newID, InputOf(o, p, destination), s.sequence + 1);
         if key == ZERO_KEY then j == blank && r == OfferResult(None, Some(NotStored(TransferKeyRequired)))
         else j == blank.(transferKey := Some(key), status := Accepted) && Says(r, io.channel, Accept, None)
  {
    hide Valid, CheckReceive, Apply, CreateReceive;
    var i := InputOf(o, p, destination);
    TakeKeepsValid(s, NewReceive(io.newID, i));
    CreatedEffect(s, io.newID, i);
    var created := CreateReceive(s, io.newID, i).0;
    ApplyKeepsValid(created, io.newID, AttachTransferKey(key));
    KeyedEffect(created, io.newID, key);
    if key != ZERO_KEY {
      var keyed := Apply(created, io.newID, AttachTransferKey(key)).0;
      ApplyKeepsValid(keyed, io.newID, MarkAccepted);
      AcceptedEffect(keyed, io.newID);
    }
  }

  lemma CreatedEffect(s: Store, id: string, i: ReceiveInput)
    requires CheckReceive(s, i).None?
    ensures var (t, r) := CreateReceive(s, id, i);
      r == Ok(ReceiveJob(id, i, s.sequence + 1)) && t.jobs == s.jobs[id := r.value]
  {
    hide FillEvent;
  }

  lemma KeyedEffect(s: Store, id: string, key: TransferKey)
    requires id in s.jobs && !s.jobs[id].status.IsTerminal()
    ensures var (t, r) := Apply(s, id, AttachTransferKey(key));
      if key == ZERO_KEY then r == Err(TransferKeyRequired) && t == s
      else r.Ok? && t.jobs == s.jobs[id := s.jobs[id].(transferKey := Some(key))]
  {
    hide FillEvent, Draft;
  }

  lemma AcceptedEffect(s: Store, id: string)
    requires id in s.jobs && s.jobs[id].status.Offered?
    ensures var (t, r) := Apply(s, id, MarkAccepted);
      r.Ok? && t.jobs == s.jobs[id := s.jobs[id].(status := Accepted)]
  {
    hide FillEvent, Draft;
  }

  // The offer gets as far as a reservation.
  ghost predicate Admitted(k: OfferDesk, w: Desk, o: Offer) {
    && o.toAgentID == k.agentID && FindByTransferID(w.store, o.transferID).None? && o.payload.Some?
    && Evaluate(k.policy, o.fromAgentID, o.payload.value).Accept?
    && k.hasPrivateKey && o.payload.value.keyEnvelope.Some? && o.payload.value.keyEnvelope.value.key.Some?
  }

  // An offer either changes neither the jobs nor the reservations (always so
  // when it is misdirected, repeated, denied, or without a readable key), or
  // adds one job and one entry that match.
  lemma OfferAddsAPairOrNothing(k: OfferDesk, w: Desk, o: Offer, io: Circumstance)
    requires Valid(w.store) && io.newID != "" && io.newID !in w.store.jobs
    ensures var (t, r) := HandleOffer(k, w, o, io);
      && Valid(t.store)
      && (!Admitted(k, w, o) ==> t == w)
      && (Admitted(k, w, o) ==>
            var p := o.payload.value;
            var (inbox, disk, entry) :=
              ReserveStep(k.inboxDir, w.inbox, w.disk, InboxOffer(o.transferID, o.fromAgentID, p.fileName, p.fileSizeBytes), io.text, io.faults);
            t.inbox == inbox && t.disk == disk && (entry.Ok? <==> t.inbox.entries != w.inbox.entries))
      && (if t.inbox.entries == w.inbox.entries then
            t.store == w.store && (r.answer == Some(Accept) ==> FindByTransferID(w.store, o.transferID).Some?)
          else
            && |t.inbox.entries| == |w.inbox.entries| + 1 && t.inbox.entries[..|w.inbox.entries|] == w.inbox.entries
            && io.newID in t.store.jobs && t.store.jobs == w.store.jobs[io.newID := t.store.jobs[io.newID]]
            && Matches(t.store.jobs[io.newID], t.inbox.entries[|w.inbox.entries|])
            && t.store.jobs[io.newID].transferID == o.transferID != ""
            && FindByTransferID(w.store, o.transferID).None?
            && t.store.jobs[io.newID].status
               == (if o.payload.value.keyEnvelope.value.key == Some(ZERO_KEY) then JobStatus.Offered else Accepted))
  {
    hide Valid, ReserveStep, Record;
    if Admitted(k, w, o) {
      var p := o.payload.value;
      var offer := InboxOffer(o.transferID, o.fromAgentID, p.fileName, p.fileSizeBytes);
      var (inbox, disk, entry) := ReserveStep(k.inboxDir, w.inbox, w.disk, offer, io.text, io.faults);
      GrantIsFreeAndInside(k.inboxDir, w.inbox, w.disk, offer, io.text, io.faults);
      if entry.Ok? {
        GrantedOffersAreGood(k.inboxDir, w.inbox, w.disk, offer, io.text, io.faults);
        NothingTaken(w.store, o.transferID);
        RecordEffect(k, w.store, o, p, p.keyEnvelope.value.key.value, entry.value.destinationPath, io);
      }
    }
  }

  lemma GrantedOffersAreGood(dir: string, s: InboxState, d: Disk, o: InboxOffer, text: Bytes, f: ReserveFaults)
    requires ReserveStep(dir, s, d, o, text, f).2.Ok?
    ensures o.transferID != "" && o.fromAgentID != "" && o.fileName != "" && o.fileSizeBytes >= 0
  {
    hide Candidate, Slot;
  }

  lemma NothingTaken(s: Store, transferID: string)
    requires transferID != "" && FindByTransferID(s, transferID).None?
    ensures !TransferIDTaken(s.jobs, transferID, "")
  {
  }

  // ---- What an offer is answered ----

  // What the policy says to an offer it denies.
  predicate DeniedWith(p: ReceivePolicy, fromAgentID: string, fileSizeBytes: int, reason: string) {
    || (p.denyAll && reason == "receive_policy_denies_all")
    || (!p.denyAll && p.allowedFromAgentIDs != [] && fromAgentID !in p.allowedFromAgentIDs && reason == "sender_not_allowed")
    || (&& !p.denyAll && (p.allowedFromAgentIDs == [] || fromAgentID in p.allowedFromAgentIDs)
        && 0 < p.maxFileSizeBytes < fileSizeBytes && reason == "file_size_exceeds_receive_policy")
  }

  // The offer is one that is denied, for this reason: the policy's, or that it
  // brings no key.
  predicate ToBeDenied(k: OfferDesk, o: Offer, reason: string) {
    && o.payload.Some?
    && (DeniedWith(k.policy, o.fromAgentID, o.payload.value.fileSizeBytes, reason)
        || (&& Permitted(k.policy, o.fromAgentID, o.payload.value.fileSizeBytes)
            && o.payload.value.keyEnvelope.None? && reason == "transfer_key_required"))
  }

  // Afterwards there is a job of the transfer: one there was before, or one this
  // call has made and marked accepted.
  ghost predicate Taken(before: Store, after: Store, o: Offer, newID: string) {
    || (exists id :: id in before.jobs && before.jobs[id].transferID == o.transferID)
    || (newID !in before.jobs && newID in after.jobs && after.jobs[newID].transferID == o.transferID
        && after.jobs[newID].status.Accepted?)
  }

  // An answer as it comes out of the channel. Without one, a denial becomes this
  // error; one that fails is the error.
  predicate Says(r: OfferResult, channel: Option<bool>, d: Decision, silently: Option<OfferError>) {
    match channel
    case None => r == OfferResult(None, silently)
    case Some(true) => r == OfferResult(Some(d), None)
    case Some(false) => r == OfferResult(None, Some(SendFailed))
  }

  // The offer is answered as accepted if its transfer is taken, as denied for
  // the reason there is, and otherwise not at all, but with the error that
  // stopped it.
  ghost predicate AnsweredProperly(k: OfferDesk, before: Store, after: Store, o: Offer, newID: string, channel: Option<bool>, r: OfferResult) {
    var found := exists id :: id in before.jobs && before.jobs[id].transferID == o.transferID;
    if o.toAgentID != k.agentID then r == OfferResult(None, Some(OfferRecipientMismatch)) && after == before
    else
      && (Taken(before, after, o, newID) ==> Says(r, channel, Accept, None))
      && (forall reason :: !found && ToBeDenied(k, o, reason) ==>
            && after == before
            && Says(r, channel, Deny(reason),
                    Some(if Permitted(k.policy, o.fromAgentID, o.payload.value.fileSizeBytes) then OfferKeyRequired else OfferDeniedByPolicy)))
      && (!Taken(before, after, o, newID) && (forall reason :: !ToBeDenied(k, o, reason)) ==>
            && r.answer.None? && r.error.Some?
            && (if o.payload.None? then r.error == Some(MalformedPayload)
                else if !k.hasPrivateKey then r.error == Some(OfferKeyRequired)
                else if o.payload.value.keyEnvelope.Some? && o.payload.value.keyEnvelope.value.key.None? then r.error == Some(OfferKeyUnreadable)
                else r.error.value.NotReserved? || r.error.value.NotStored?))
  }

  lemma DenialReasons(p: ReceivePolicy, fromAgentID: string, o: OfferPayload)
    ensures var d := Evaluate(p, fromAgentID, o);
      && (d.Accept? <==> Permitted(p, fromAgentID, o.fileSizeBytes))
      && (d.Accept? ==> forall reason :: !DeniedWith(p, fromAgentID, o.fileSizeBytes, reason))
      && (d.Deny? ==> DeniedWith(p, fromAgentID, o.fileSizeBytes, d.reason))
      && (d.Deny? ==> forall reason :: DeniedWith(p, fromAgentID, o.fileSizeBytes, reason) ==> reason == d.reason)
  {
  }

  // So it is with every offer of a transfer with an id: with a working channel
  // it is answered as accepted if and only if its job is there or has been made
  // and accepted, and as denied exactly for the policy's own reason or for want
  // of a key.
  lemma OfferIsAnswered(k: OfferDesk, w: Desk, o: Offer, io: Circumstance)
    requires Valid(w.store) && io.newID != "" && io.newID !in w.store.jobs && o.transferID != ""
    ensures var (t, r) := HandleOffer(k, w, o, io);
      && AnsweredProperly(k, w.store, t.store, o, io.newID, io.channel, r)
      && (io.channel == Some(true) && o.toAgentID == k.agentID ==>
            && (r.answer == Some(Accept) <==> Taken(w.store, t.store, o, io.newID))
            && (forall reason :: r.answer == Some(Deny(reason)) <==>
                  FindByTransferID(w.store, o.transferID).None? && ToBeDenied(k, o, reason)))
  {
    hide Valid, ReserveStep, Record, DeniedWith, Permitted, Evaluate;
    if o.payload.Some? { DenialReasons(k.policy, o.fromAgentID, o.payload.value); }
    if FindByTransferID(w.store, o.transferID).Some? {
      assert exists id :: id in w.store.jobs && w.store.jobs[id].transferID == o.transferID;
    } else if Admitted(k, w, o) {
      AdmittedIsAnswered(k, w, o, io);
    } else if o.toAgentID == k.agentID && o.payload.Some? {
      var d := Evaluate(k.policy, o.fromAgentID, o.payload.value);
      if d.Deny? {
        assert ToBeDenied(k, o, d.reason);
      } else if o.payload.value.keyEnvelope.None? {
        assert ToBeDenied(k, o, "transfer_key_required");
      } else {
        assert forall reason :: !ToBeDenied(k, o, reason);
      }
    }
  }

  lemma AdmittedIsAnswered(k: OfferDesk, w: Desk, o: Offer, io: Circumstance)
    requires Valid(w.store) && io.newID != "" && io.newID !in w.store.jobs && o.transferID != "" && Admitted(k, w, o)
    ensures var (t, r) := HandleOffer(k, w, o, io);
      && (if Taken(w.store, t.store, o, io.newID) then Says(r, io.channel, Accept, None)
          else r.answer.None? && r.error.Some? && (r.error.value.NotReserved? || r.error.value.NotStored?))
      && (forall reason :: !ToBeDenied(k, o, reason))
  {
    hide Valid, ReserveStep, Record, DeniedWith, Permitted, Evaluate;
    var p := o.payload.value;
    DenialReasons(k.policy, o.fromAgentID, p);
    var offer := InboxOffer(o.transferID, o.fromAgentID, p.fileName, p.fileSizeBytes);
    var entry := ReserveStep(k.inboxDir, w.inbox, w.disk, offer, io.text, io.faults).2;
    if entry.Ok? {
      GrantedOffersAreGood(k.inboxDir, w.inbox, w.disk, offer, io.text, io.faults);
      NothingTaken(w.store, o.transferID);
      RecordEffect(k, w.store, o, p, p.keyEnvelope.value.key.value, entry.value.destinationPath, io);
      var (t, r) := HandleOffer(k, w, o, io);
      assert (t.store, r) == Record(k, w.store, o, p, p.keyEnvelope.value.key.value, entry.value.destinationPath, io);
      assert p.keyEnvelope.value.key.value != ZERO_KEY ==> Taken(w.store, t.store, o, io.newID);
    }
  }

  // ---- Runs ----

  // One step of the daemon: an offer, any other operation on its jobs, or any
  // change on the disk.
  datatype DeskStep = OfferArrives(offer: Offer, io: Circumstance) | Elsewhere(step: Step) | DiskBecomes(disk: Disk)

  ghost function Handled(k: OfferDesk, w: Desk, d: DeskStep): Desk {
    match d
    case OfferArrives(o, io) => HandleOffer(k, w, o, io).0
    case Elsewhere(step) => w.(store := Take(w.store, step).0)
    case DiskBecomes(disk) => w.(disk := disk)
  }

  // Ids drawn are fresh; receive jobs are created by offers alone, and only
  // send jobs are bound to a transfer after their creation.
  ghost predicate Usual(w: Desk, d: DeskStep) {
    match d
    case OfferArrives(_, io) => io.newID != "" && io.newID !in w.store.jobs
    case Elsewhere(step) =>
      && FreshID(w.store, step) && !step.NewReceive?
      && (step.On? && step.op.AttachTransfer? && step.jobID in w.store.jobs ==> w.store.jobs[step.jobID].direction.Send?)
    case DiskBecomes(_) => true
  }

  const EMPTY_DESK: Desk := Desk(EMPTY_STORE, EMPTY_INBOX, map[])

  ghost function Ran(k: OfferDesk, steps: seq<DeskStep>): Desk {
    if steps == [] then EMPTY_DESK else Handled(k, Ran(k, steps[..|steps| - 1]), steps[|steps| - 1])
  }

  ghost predicate UsualRun(k: OfferDesk, steps: seq<DeskStep>) {
    steps != [] ==> UsualRun(k, steps[..|steps| - 1]) && Usual(Ran(k, steps[..|steps| - 1]), steps[|steps| - 1])
  }

  // The records of one id, before and after a step elsewhere.
  lemma ElsewhereKeepsMatches(s: Store, step: Step, id: string)
    requires Valid(s) && Usual(Desk(s, EMPTY_INBOX, map[]), Elsewhere(step))
    ensures var t := Take(s, step).0;
      && (id in s.jobs ==> id in t.jobs && t.jobs[id].direction == s.jobs[id].direction
                           && (forall e :: Matches(s.jobs[id], e) ==> Matches(t.jobs[id], e)))
      && (id in t.jobs && id !in s.jobs ==> t.jobs[id].direction.Send?)
  {
    hide Take, Valid, Mutate;
    JobsAfter(s, step);
    if step.On? && step.jobID in s.jobs && Take(s, step).1.Ok? {
      ReceiveJobStays(s.jobs, s.jobs[step.jobID], step.op);
    } else if step.NewSend? && Take(s, step).1.Ok? {
      NewSendSends(s, step);
    }
  }

  lemma ReceiveJobStays(jobs: map<string, Job>, job: Job, op: JobOp)
    requires Mutate(jobs, job, op).Ok? && (op.AttachTransfer? ==> job.direction.Send?)
    ensures var j := Mutate(jobs, job, op).value;
      j.direction == job.direction && forall e :: Matches(job, e) ==> Matches(j, e)
  {
  }

  lemma NewSendSends(s: Store, step: Step)
    requires step.NewSend? && Take(s, step).1.Ok?
    ensures Take(s, step).1.value.direction.Send?
  {
  }

  lemma ElsewhereKeepsCorrespondence(s: Store, step: Step, entries: seq<InboxEntry>)
    requires Valid(s) && Usual(Desk(s, EMPTY_INBOX, map[]), Elsewhere(step)) && Corresponds(s.jobs, entries)
    ensures Corresponds(Take(s, step).0.jobs, entries)
  {
    hide Take, Valid, Matches, Usual;
    var t := Take(s, step).0;
    forall id | id in t.jobs && t.jobs[id].direction.Receive? ensures HasEntry(t.jobs[id], entries) {
      ElsewhereKeepsMatches(s, step, id);
      assert HasEntry(s.jobs[id], entries);
      var e :| e in entries && Matches(s.jobs[id], e);
      assert Matches(t.jobs[id], e);
    }
    forall e | e in entries ensures HasJob(t.jobs, e) {
      assert HasJob(s.jobs, e);
      var id :| id in s.jobs && Matches(s.jobs[id], e);
      ElsewhereKeepsMatches(s, step, id);
      assert Matches(t.jobs[id], e);
    }
  }

  lemma PairKeepsCorrespondence(jobs: map<string, Job>, entries: seq<InboxEntry>, id: string, job: Job, e: InboxEntry)
    requires Corresponds(jobs, entries) && id !in jobs && Matches(job, e)
    requires forall x :: x in jobs ==> jobs[x].transferID != e.transferID
    ensures Corresponds(jobs[id := job], entries + [e])
  {
    hide Matches;
    var jobs', entries' := jobs[id := job], entries + [e];
    forall x | x in jobs' && jobs'[x].direction.Receive? ensures HasEntry(jobs'[x], entries') {
      if x == id {
        assert e in entries' && Matches(jobs'[x], e);
      } else {
        assert HasEntry(jobs[x], entries);
        var y :| y in entries && Matches(jobs[x], y);
        assert y in entries';
      }
    }
    forall y | y in entries' ensures HasJob(jobs', y) && (y in entries ==> y.transferID != e.transferID) {
      if y in entries {
        assert HasJob(jobs, y);
        var x :| x in jobs && Matches(jobs[x], y);
        MatchedTransfer(jobs[x], y);
        assert Matches(jobs'[x], y);
      } else {
        assert Matches(jobs'[id], y);
      }
    }
    assert forall i :: 0 <= i < |entries| ==> entries'[i] in entries;
  }

  lemma MatchedTransfer(job: Job, e: InboxEntry)
    requires Matches(job, e)
    ensures job.transferID == e.transferID && job.destinationPath == e.destinationPath && job.direction.Receive?
  {
  }

  // What every reachable state of the daemon keeps.
  ghost predicate InOrder(w: Desk) {
    Valid(w.store) && Tidy(w.inbox) && Corresponds(w.store.jobs, w.inbox.entries)
  }

  lemma OfferKeepsOrder(k: OfferDesk, w: Desk, o: Offer, io: Circumstance)
    requires InOrder(w) && io.newID != "" && io.newID !in w.store.jobs
    ensures InOrder(HandleOffer(k, w, o, io).0)
  {
    hide Valid, HandleOffer, Matches, Admitted, Corresponds, Tidy;
    OfferAddsAPairOrNothing(k, w, o, io);
    OfferKeepsTidy(k, w, o, io);
    var t := HandleOffer(k, w, o, io).0;
    if t.inbox.entries != w.inbox.entries {
      var n := |w.inbox.entries|;
      MatchedTransfer(t.store.jobs[io.newID], t.inbox.entries[n]);
      assert t.inbox.entries == w.inbox.entries + [t.inbox.entries[n]];
      PairKeepsCorrespondence(w.store.jobs, w.inbox.entries, io.newID, t.store.jobs[io.newID], t.inbox.entries[n]);
    }
  }

  lemma OfferKeepsTidy(k: OfferDesk, w: Desk, o: Offer, io: Circumstance)
    requires Tidy(w.inbox)
    ensures Tidy(HandleOffer(k, w, o, io).0.inbox)
  {
    hide ReserveStep, Record, Tidy;
    if Admitted(k, w, o) {
      var p := o.payload.value;
      var offer := InboxOffer(o.transferID, o.fromAgentID, p.fileName, p.fileSizeBytes);
      GrantIsFreeAndInside(k.inboxDir, w.inbox, w.disk, offer, io.text, io.faults);
      var (inbox, disk, r) := ReserveStep(k.inboxDir, w.inbox, w.disk, offer, io.text, io.faults);
      if r.Ok? { GrantKeepsTidy(w.inbox, inbox, r.value); } else { RefusalKeepsTidy(w.inbox, inbox); }
    }
  }

  // Over any run, duplicates, denials and failed reservations included,
  // receive jobs and inbox entries stay in one-to-one correspondence.
  lemma {:induction false} JobsMatchReservations(k: OfferDesk, steps: seq<DeskStep>)
    requires UsualRun(k, steps)
    ensures InOrder(Ran(k, steps))
    decreases |steps|
  {
    hide HandleOffer, Take, Tidy, Valid, Corresponds, FreshID;
    if steps == [] {
      EmptyStoreIsValid();
      EmptyIsTidy();
      assert Corresponds(map[], []) by { NothingCorresponds(); }
    } else {
      var w := Ran(k, steps[..|steps| - 1]);
      JobsMatchReservations(k, steps[..|steps| - 1]);
      match steps[|steps| - 1]
      case OfferArrives(o, io) => OfferKeepsOrder(k, w, o, io);
      case DiskBecomes(_) =>
      case Elsewhere(step) =>
        TakeKeepsValid(w.store, step);
        ElsewhereKeepsCorrespondence(w.store, step, w.inbox.entries);
    }
  }

  lemma NothingCorresponds()
    ensures Corresponds(map[], [])
  {
  }

  lemma EntryOf(w: Desk, id: string) returns (i: nat)
    requires InOrder(w) && id in w.store.jobs && w.store.jobs[id].direction.Receive?
    ensures i < |w.inbox.entries|
    ensures w.store.jobs[id].transferID == w.inbox.entries[i].transferID
    ensures w.store.jobs[id].destinationPath == w.inbox.entries[i].destinationPath
  {
    hide Valid, Tidy;
    assert HasEntry(w.store.jobs[id], w.inbox.entries);
    var e :| e in w.inbox.entries && Matches(w.store.jobs[id], e);
    i :| 0 <= i < |w.inbox.entries| && w.inbox.entries[i] == e;
  }

  lemma BoundApart(s: Store, a: string, b: string)
    requires Valid(s) && a in s.jobs && b in s.jobs && a != b && s.jobs[a].transferID != ""
    ensures s.jobs[a].transferID != s.jobs[b].transferID
  {
    hide GoodLog, GoodJob;
  }

  // So no two receive jobs ever share a destination.
  lemma DestinationsOfJobsDiffer(k: OfferDesk, steps: seq<DeskStep>, a: string, b: string)
    requires UsualRun(k, steps) && a != b
    requires var jobs := Ran(k, steps).store.jobs;
             a in jobs && b in jobs && jobs[a].direction.Receive? && jobs[b].direction.Receive?
    ensures var jobs := Ran(k, steps).store.jobs; jobs[a].destinationPath != jobs[b].destinationPath
  {
    hide Ran, UsualRun, Valid, Corresponds;
    JobsMatchReservations(k, steps);
    var w := Ran(k, steps);
    var i := EntryOf(w, a);
    var j := EntryOf(w, b);
    EntriesAreNamed(k, steps, i);
    BoundApart(w.store, a, b);
  }

  lemma OneNamedEntryMore(k: OfferDesk, w: Desk, step: DeskStep)
    requires InOrder(w) && Usual(w, step)
    ensures var before, after := w.inbox.entries, Handled(k, w, step).inbox.entries;
      after == before || (|after| == |before| + 1 && after[..|before|] == before && after[|before|].transferID != "")
  {
    hide HandleOffer, Take, Valid, Tidy, Matches, Admitted, Corresponds;
    if step.OfferArrives? {
      OfferAddsAPairOrNothing(k, w, step.offer, step.io);
      var t := HandleOffer(k, w, step.offer, step.io).0;
      if t.inbox.entries != w.inbox.entries { MatchedTransfer(t.store.jobs[step.io.newID], t.inbox.entries[|w.inbox.entries|]); }
    }
  }

  lemma {:induction false} EntriesAreNamed(k: OfferDesk, steps: seq<DeskStep>, i: nat)
    requires UsualRun(k, steps) && i < |Ran(k, steps).inbox.entries|
    ensures Ran(k, steps).inbox.entries[i].transferID != ""
    decreases |steps|
  {
    hide Handled, Usual, InOrder;
    if steps != [] {
      var w := Ran(k, steps[..|steps| - 1]);
      JobsMatchReservations(k, steps[..|steps| - 1]);
      OneNamedEntryMore(k, w, steps[|steps| - 1]);
      if i < |w.inbox.entries| {
        EntriesAreNamed(k, steps[..|steps| - 1], i);
        assert Ran(k, steps).inbox.entries[i] == Ran(k, steps).inbox.entries[..|w.inbox.entries|][i];
      }
    }
  }

  lemma {:induction false} EntriesOnlyGrow(k: OfferDesk, steps: seq<DeskStep>, more: seq<DeskStep>)
    requires UsualRun(k, steps + more)
    ensures Ran(k, steps).inbox.entries <= Ran(k, steps + more).inbox.entries
    decreases |more|
  {
    hide Handled, Usual, InOrder;
    if more == [] {
      assert steps + more == steps;
    } else {
      var all := steps + more;
      var before := steps + more[..|more| - 1];
      assert all[..|all| - 1] == before && all[|all| - 1] == more[|more| - 1];
      EntriesOnlyGrow(k, steps, more[..|more| - 1]);
      JobsMatchReservations(k, before);
      OneNamedEntryMore(k, Ran(k, before), more[|more| - 1]);
    }
  }

  // Once an offer has been taken, every later offer of the same transfer, from
  // whomever and with whatever payload, changes nothing and is answered as
  // accepted, however much has happened in between.
  lemma RepeatedOffersChangeNothing(k: OfferDesk, steps: seq<DeskStep>, more: seq<DeskStep>, i: nat, o: Offer, io: Circumstance)
    requires UsualRun(k, steps + more) && i < |Ran(k, steps).inbox.entries|
    requires o.transferID == Ran(k, steps).inbox.entries[i].transferID && o.toAgentID == k.agentID
    ensures var (t, r) := HandleOffer(k, Ran(k, steps + more), o, io);
      && t == Ran(k, steps + more)
      && (io.channel == Some(true) ==> r == OfferResult(Some(Accept), None))
      && (io.channel == Some(false) ==> r == OfferResult(None, Some(SendFailed)))
      && (io.channel == None ==> r == OfferResult(None, None))
  {
    hide Ran, UsualRun, Matches, Valid, Tidy;
    EntriesOnlyGrow(k, steps, more);
    JobsMatchReservations(k, steps + more);
    var w := Ran(k, steps + more);
    assert w.inbox.entries[i] == Ran(k, steps).inbox.entries[i];
    EntriesAreNamed(k, steps + more, i);
    assert HasJob(w.store.jobs, w.inbox.entries[i]);
    var id :| id in w.store.jobs && Matches(w.store.jobs[id], w.inbox.entries[i]);
    MatchedTransfer(w.store.jobs[id], w.inbox.entries[i]);
  }

  // ---- The policy ----

  lemma {:induction false} EntriesArePermitted(k: OfferDesk, steps: seq<DeskStep>)
    requires UsualRun(k, steps)
    ensures forall e :: e in Ran(k, steps).inbox.entries ==> Permitted(k.policy, e.fromAgentID, e.fileSizeBytes)
    decreases |steps|
  {
    hide HandleOffer, Take, Valid, Admitted, FreshID;
    if steps != [] {
      var w := Ran(k, steps[..|steps| - 1]);
      var t := Ran(k, steps);
      EntriesArePermitted(k, steps[..|steps| - 1]);
      if steps[|steps| - 1].OfferArrives? {
        var o, io := steps[|steps| - 1].offer, steps[|steps| - 1].io;
        OfferIsPermitted(k, w, o, io);
        assert forall e :: e in t.inbox.entries ==> e in w.inbox.entries || Permitted(k.policy, e.fromAgentID, e.fileSizeBytes);
      }
    }
  }

  lemma OfferIsPermitted(k: OfferDesk, w: Desk, o: Offer, io: Circumstance)
    ensures forall e :: e in HandleOffer(k, w, o, io).0.inbox.entries ==>
              e in w.inbox.entries || Permitted(k.policy, e.fromAgentID, e.fileSizeBytes)
  {
    hide ReserveStep, Record, FindByTransferID;
    if Admitted(k, w, o) {
      var p := o.payload.value;
      var offer := InboxOffer(o.transferID, o.fromAgentID, p.fileName, p.fileSizeBytes);
      GrantIsFreeAndInside(k.inboxDir, w.inbox, w.disk, offer, io.text, io.faults);
    }
  }

  // Whatever is offered and whatever else happens, every receive job the daemon
  // ever holds comes from a sender the policy allows and is within its size.
  lemma PolicyHoldsOfEveryJob(k: OfferDesk, steps: seq<DeskStep>, id: string)
    requires UsualRun(k, steps)
    requires id in Ran(k, steps).store.jobs && Ran(k, steps).store.jobs[id].direction.Receive?
    ensures var job := Ran(k, steps).store.jobs[id]; Permitted(k.policy, job.fromAgentID, job.fileSizeBytes)
  {
    hide Ran, UsualRun, Valid, Tidy;
    JobsMatchReservations(k, steps);
    EntriesArePermitted(k, steps);
    var w := Ran(k, steps);
    assert HasEntry(w.store.jobs[id], w.inbox.entries);
  }
}
