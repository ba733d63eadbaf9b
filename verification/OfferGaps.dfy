// Offers when other work on the job store comes in between their parts: the
// search for a job, the reservation, and the three operations that make the
// job each take their own lock (internal/agentd/backend_client.go,
// handleTransferOffer). One lock keeps the parts of two offers apart.
module OfferGaps {
  import opened Wrappers
  import opened Files
  import opened ChunkCrypto
  import opened Jobs
  import opened JobRuns
  import opened InboxReservations
  import opened InboxClashes
  import opened Offers

  // How far the offer under way has come: no job of its transfer was found and
  // its checks have passed; its entry is reserved; its job is created; the key
  // is attached.
  datatype Stage =
    | Resting
    | Searched(offer: Offer)
    | Placed(offer: Offer, entry: InboxEntry)
    | Listed(jobID: string, key: TransferKey)
    | Keyed(jobID: string)

  datatype Hall = Hall(desk: Desk, stage: Stage)

  datatype HallEvent =
    | Searches(offer: Offer)
    | Reserves(text: Bytes, faults: ReserveFaults)
    | Creates(newID: string)
    | Keys
    | Accepts
    | Besides(step: Step)
    | DiskTurns(disk: Disk)

  const NOBODY_YET: Hall := Hall(EMPTY_DESK, Resting)

  // The checks between the search and the reservation.
  predicate Passes(k: OfferDesk, o: Offer) {
    && o.toAgentID == k.agentID && o.payload.Some? && Evaluate(k.policy, o.fromAgentID, o.payload.value).Accept?
    && k.hasPrivateKey && o.payload.value.keyEnvelope.Some? && o.payload.value.keyEnvelope.value.key.Some?
  }

  function Asked(o: Offer): InboxOffer
    requires o.payload.Some?
  {
    InboxOffer(o.transferID, o.fromAgentID, o.payload.value.fileName, o.payload.value.fileSizeBytes)
  }

  function KeyOf(o: Offer): TransferKey {
    if o.payload.Some? && o.payload.value.keyEnvelope.Some? && o.payload.value.keyEnvelope.value.key.Some?
    then o.payload.value.keyEnvelope.value.key.value else ZERO_KEY
  }

  ghost function Reserving(k: OfferDesk, w: Hall, o: Offer, text: Bytes, f: ReserveFaults): Hall
    requires o.payload.Some?
  {
    var (inbox, disk, entry) := ReserveStep(k.inboxDir, w.desk.inbox, w.desk.disk, Asked(o), text, f);
    Hall(w.desk.(inbox := inbox, disk := disk), if entry.Ok? then Placed(o, entry.value) else Resting)
  }

  // What an operation of the offer on its job does, and where it leads.
  ghost function Working(w: Hall, step: Step, next: Stage): Hall {
    var (store, r) := Take(w.desk.store, step);
    Hall(w.desk.(store := store), if r.Ok? then next else Resting)
  }

  function JobFor(o: Offer, e: InboxEntry): ReceiveInput {
    ReceiveInput(o.transferID, o.fromAgentID, e.fileName, e.fileSizeBytes, e.destinationPath)
  }

  ghost function HallStep(k: OfferDesk, w: Hall, e: HallEvent): Hall {
    match e
    case Searches(o) =>
      if w.stage.Resting? && FindByTransferID(w.desk.store, o.transferID).None? && Passes(k, o) then w.(stage := Searched(o)) else w
    case Reserves(text, f) => if w.stage.Searched? && w.stage.offer.payload.Some? then Reserving(k, w, w.stage.offer, text, f) else w
    case Creates(id) =>
      if w.stage.Placed? then Working(w, NewReceive(id, JobFor(w.stage.offer, w.stage.entry)), Listed(id, KeyOf(w.stage.offer))) else w
    case Keys => if w.stage.Listed? then Working(w, On(w.stage.jobID, AttachTransferKey(w.stage.key)), Keyed(w.stage.jobID)) else w
    case Accepts => if w.stage.Keyed? then Working(w, On(w.stage.jobID, MarkAccepted), Resting) else w
    case Besides(step) => w.(desk := w.desk.(store := Take(w.desk.store, step).0))
    case DiskTurns(d) => w.(desk := w.desk.(disk := d))
  }

  // As in Offers: ids drawn are fresh, and only offers make receive jobs.
  ghost predicate Ordinary(w: Hall, e: HallEvent) {
    match e
    case Creates(id) => id != "" && id !in w.desk.store.jobs
    case Besides(step) => Usual(w.desk, Elsewhere(step))
    case _ => true
  }

  ghost function HallRun(k: OfferDesk, events: seq<HallEvent>): Hall {
    if events == [] then NOBODY_YET else HallStep(k, HallRun(k, events[..|events| - 1]), events[|events| - 1])
  }

  ghost predicate OrdinaryRun(k: OfferDesk, events: seq<HallEvent>) {
    events != [] ==> OrdinaryRun(k, events[..|events| - 1]) && Ordinary(HallRun(k, events[..|events| - 1]), events[|events| - 1])
  }

  // ---- Nothing in between ----

  ghost function OfferedAlone(k: OfferDesk, w: Hall, o: Offer, io: Circumstance): Hall {
    var reserved := HallStep(k, HallStep(k, w, Searches(o)), Reserves(io.text, io.faults));
    HallStep(k, HallStep(k, HallStep(k, reserved, Creates(io.newID)), Keys), Accepts)
  }

  // An offer with nothing in between is the one step that Offers takes it for.
  lemma OfferedAloneIsTheOffer(k: OfferDesk, w: Hall, o: Offer, io: Circumstance)
    requires w.stage.Resting?
    ensures OfferedAlone(k, w, o, io) == Hall(HandleOffer(k, w.desk, o, io).0, Resting)
  {
    hide ReserveStep, CreateReceive, Apply, FindByTransferID, Evaluate;
    if FindByTransferID(w.desk.store, o.transferID).None? && Passes(k, o) {
      EntryTellsOffer(k, w.desk, Asked(o), io.text, io.faults);
      var p := o.payload.value;
      var reserved := Reserving(k, w.(stage := Searched(o)), o, io.text, io.faults);
      assert HallStep(k, HallStep(k, w, Searches(o)), Reserves(io.text, io.faults)) == reserved;
      if reserved.stage.Placed? {
        var e := reserved.stage.entry;
        assert JobFor(o, e) == InputOf(o, p, e.destinationPath);
        RecordedStepwise(k, reserved, io);
      }
    } else {
      assert HallStep(k, w, Searches(o)) == w;
    }
  }

  lemma RecordedStepwise(k: OfferDesk, w: Hall, io: Circumstance)
    requires w.stage.Placed? && w.stage.offer.payload.Some?
    requires var p := w.stage.offer.payload.value;
             JobFor(w.stage.offer, w.stage.entry) == InputOf(w.stage.offer, p, w.stage.entry.destinationPath)
    ensures var o, e := w.stage.offer, w.stage.entry;
      HallStep(k, HallStep(k, HallStep(k, w, Creates(io.newID)), Keys), Accepts)
      == Hall(w.desk.(store := Record(k, w.desk.store, o, o.payload.value, KeyOf(o), e.destinationPath, io).0), Resting)
  {
    hide CreateReceive, Apply, KeyOf;
    var o, e, id := w.stage.offer, w.stage.entry, io.newID;
    var made := HallStep(k, w, Creates(id));
    var keyed := HallStep(k, made, Keys);
    var done := HallStep(k, keyed, Accepts);
    var (created, r) := CreateReceive(w.desk.store, id, JobFor(o, e));
    assert made == Hall(w.desk.(store := created), if r.Ok? then Listed(id, KeyOf(o)) else Resting);
    if r.Ok? {
      var (withKey, q) := Apply(created, id, AttachTransferKey(KeyOf(o)));
      assert keyed == Hall(w.desk.(store := withKey), if q.Ok? then Keyed(id) else Resting);
      assert q.Err? ==> done == keyed;
    } else {
      assert done == keyed == made;
    }
  }

  lemma EntryTellsOffer(k: OfferDesk, w: Desk, o: InboxOffer, text: Bytes, f: ReserveFaults)
    ensures var r := ReserveStep(k.inboxDir, w.inbox, w.disk, o, text, f).2;
      r.Ok? ==>
        && r.value.transferID == o.transferID && r.value.fromAgentID == o.fromAgentID
        && r.value.fileName == o.fileName && r.value.fileSizeBytes == o.fileSizeBytes
  {
    hide Candidate, Slot;
  }

  // ---- Which entries have their job ----

  // The entries whose offer found its transfer bound to another job when it came
  // to create its own.
  ghost function Orphans(k: OfferDesk, events: seq<HallEvent>): set<nat> {
    if events == [] then {}
    else OrphansAfter(HallRun(k, events[..|events| - 1]), events[|events| - 1], Orphans(k, events[..|events| - 1]))
  }

  ghost function OrphansAfter(w: Hall, e: HallEvent, orphans: set<nat>): set<nat> {
    if e.Creates? && w.stage.Placed? && w.desk.inbox.entries != [] && TransferIDTaken(w.desk.store.jobs, w.stage.entry.transferID, "")
    then orphans + {|w.desk.inbox.entries| - 1} else orphans
  }

  // The entry of the offer under way, still without a job.
  predicate IsPending(w: Hall, i: nat) { w.stage.Placed? && i == |w.desk.inbox.entries| - 1 }

  function Standing(w: Hall, orphans: set<nat>): set<nat> {
    set i: nat | 0 <= i < |w.desk.inbox.entries| && i !in orphans && !IsPending(w, i)
  }

  // These entries have a job, and every receive job has one of them.
  ghost predicate Backed(jobs: map<string, Job>, entries: seq<InboxEntry>, standing: set<nat>) {
    && (forall i :: i in standing ==> i < |entries| && HasJob(jobs, entries[i]))
    && (forall id :: id in jobs && jobs[id].direction.Receive? ==> HasPlace(jobs[id], entries, standing))
  }

  ghost predicate HasPlace(job: Job, entries: seq<InboxEntry>, standing: set<nat>) {
    exists i :: i in standing && i < |entries| && Matches(job, entries[i])
  }

  ghost predicate GoodEntry(k: OfferDesk, e: InboxEntry) {
    && e.transferID != "" && e.fromAgentID != "" && e.fileName != "" && e.fileSizeBytes >= 0
    && Permitted(k.policy, e.fromAgentID, e.fileSizeBytes)
  }

  ghost predicate GoodStage(k: OfferDesk, w: Hall) {
    match w.stage
    case Searched(o) => Passes(k, o)
    case Placed(o, e) =>
      && w.desk.inbox.entries != [] && w.desk.inbox.entries[|w.desk.inbox.entries| - 1] == e
      && o.transferID == e.transferID && o.fromAgentID == e.fromAgentID
    case _ => true
  }

  ghost predicate GoodHall(k: OfferDesk, w: Hall, orphans: set<nat>) {
    && Valid(w.desk.store) && Tidy(w.desk.inbox) && GoodStage(k, w)
    && (forall e :: e in w.desk.inbox.entries ==> GoodEntry(k, e))
    && (forall i :: i in orphans ==> i < |w.desk.inbox.entries| && !IsPending(w, i))
    && Backed(w.desk.store.jobs, w.desk.inbox.entries, Standing(w, orphans))
  }

  lemma BackedBesides(s: Store, step: Step, entries: seq<InboxEntry>, standing: set<nat>)
    requires Valid(s) && Usual(Desk(s, EMPTY_INBOX, map[]), Elsewhere(step)) && Backed(s.jobs, entries, standing)
    ensures Backed(Take(s, step).0.jobs, entries, standing)
  {
    hide Take, Valid, Matches, Usual;
    var t := Take(s, step).0;
    forall id | id in t.jobs && t.jobs[id].direction.Receive? ensures HasPlace(t.jobs[id], entries, standing) {
      ElsewhereKeepsMatches(s, step, id);
      assert HasPlace(s.jobs[id], entries, standing);
      var i :| i in standing && i < |entries| && Matches(s.jobs[id], entries[i]);
      assert Matches(t.jobs[id], entries[i]);
    }
    forall i | i in standing ensures HasJob(t.jobs, entries[i]) {
      assert HasJob(s.jobs, entries[i]);
      var id :| id in s.jobs && Matches(s.jobs[id], entries[i]);
      ElsewhereKeepsMatches(s, step, id);
      assert Matches(t.jobs[id], entries[i]);
    }
  }

  lemma BackedGrown(jobs: map<string, Job>, entries: seq<InboxEntry>, e: InboxEntry, standing: set<nat>)
    requires Backed(jobs, entries, standing)
    ensures Backed(jobs, entries + [e], standing)
  {
    hide Matches;
    forall id | id in jobs && jobs[id].direction.Receive? ensures HasPlace(jobs[id], entries + [e], standing) {
      assert HasPlace(jobs[id], entries, standing);
      var i :| i in standing && i < |entries| && Matches(jobs[id], entries[i]);
      assert (entries + [e])[i] == entries[i];
    }
    forall i | i in standing ensures HasJob(jobs, (entries + [e])[i]) {
      assert HasJob(jobs, entries[i]);
    }
  }

  lemma BackedPair(jobs: map<string, Job>, entries: seq<InboxEntry>, standing: set<nat>, id: string, job: Job, n: nat)
    requires Backed(jobs, entries, standing) && id !in jobs && n < |entries| && Matches(job, entries[n])
    ensures Backed(jobs[id := job], entries, standing + {n})
  {
    hide Matches;
    var jobs' := jobs[id := job];
    forall x | x in jobs' && jobs'[x].direction.Receive? ensures HasPlace(jobs'[x], entries, standing + {n}) {
      if x == id {
        assert n in standing + {n} && Matches(jobs'[x], entries[n]);
      } else {
        assert HasPlace(jobs[x], entries, standing);
        var i :| i in standing && i < |entries| && Matches(jobs[x], entries[i]);
        assert i in standing + {n};
      }
    }
    forall i | i in standing + {n} ensures HasJob(jobs', entries[i]) {
      if i == n {
        assert Matches(jobs'[id], entries[n]);
      } else {
        assert HasJob(jobs, entries[i]);
        var x :| x in jobs && Matches(jobs[x], entries[i]);
        assert Matches(jobs'[x], entries[i]);
      }
    }
  }

  // ---- Step by step ----

  lemma ReservesKeepsGood(k: OfferDesk, w: Hall, text: Bytes, f: ReserveFaults, orphans: set<nat>)
    requires GoodHall(k, w, orphans) && w.stage.Searched?
    ensures GoodHall(k, HallStep(k, w, Reserves(text, f)), orphans)
  {
    hide ReserveStep, Valid, Tidy, Backed, Evaluate;
    var o := w.stage.offer;
    var t := HallStep(k, w, Reserves(text, f));
    var (inbox, disk, r) := ReserveStep(k.inboxDir, w.desk.inbox, w.desk.disk, Asked(o), text, f);
    GrantIsFreeAndInside(k.inboxDir, w.desk.inbox, w.desk.disk, Asked(o), text, f);
    if r.Ok? {
      GrantKeepsTidy(w.desk.inbox, inbox, r.value);
      GrantedOffersAreGood(k.inboxDir, w.desk.inbox, w.desk.disk, Asked(o), text, f);
      EntryTellsOffer(k, w.desk, Asked(o), text, f);
      BackedGrown(w.desk.store.jobs, w.desk.inbox.entries, r.value, Standing(w, orphans));
      assert Evaluate(k.policy, o.fromAgentID, o.payload.value).Accept?;
      assert GoodEntry(k, r.value);
    } else {
      RefusalKeepsTidy(w.desk.inbox, inbox);
    }
    assert Standing(t, orphans) == Standing(w, orphans);
  }

  lemma CreatesKeepsGood(k: OfferDesk, w: Hall, id: string, orphans: set<nat>)
    requires GoodHall(k, w, orphans) && w.stage.Placed? && id != "" && id !in w.desk.store.jobs
    ensures GoodHall(k, HallStep(k, w, Creates(id)), OrphansAfter(w, Creates(id), orphans))
  {
    hide Valid, Tidy, Backed, CreateReceive, GoodEntry, TransferIDTaken;
    var s, entries, e := w.desk.store, w.desk.inbox.entries, w.stage.entry;
    var i := JobFor(w.stage.offer, e);
    var t := HallStep(k, w, Creates(id));
    var n := |entries| - 1;
    assert entries[n] in entries;
    EntryFitsJob(k, w.stage.offer, e);
    TakeKeepsValid(s, NewReceive(id, i));
    if TransferIDTaken(s.jobs, e.transferID, "") {
      RefusedCreate(s, id, i);
      assert Standing(t, orphans + {n}) == Standing(w, orphans);
    } else {
      CreatedEffect(s, id, i);
      BackedPair(s.jobs, entries, Standing(w, orphans), id, ReceiveJob(id, i, s.sequence + 1), n);
      assert n !in orphans;
      assert Standing(t, orphans) == Standing(w, orphans) + {n};
    }
  }

  lemma EntryFitsJob(k: OfferDesk, o: Offer, e: InboxEntry)
    requires GoodEntry(k, e) && o.transferID == e.transferID && o.fromAgentID == e.fromAgentID
    ensures forall s :: CheckReceive(s, JobFor(o, e)) == if TransferIDTaken(s.jobs, e.transferID, "") then Some(DuplicateTransferID) else None
    ensures forall id, n :: Matches(ReceiveJob(id, JobFor(o, e), n), e)
  {
    hide TransferIDTaken;
  }

  lemma RefusedCreate(s: Store, id: string, i: ReceiveInput)
    requires CheckReceive(s, i).Some?
    ensures Take(s, NewReceive(id, i)).0 == s && Take(s, NewReceive(id, i)).1.Err?
  {
  }

  // Work on the store that keeps receive jobs and entries as they are.
  lemma WorkKeepsGood(k: OfferDesk, w: Hall, step: Step, next: Stage, orphans: set<nat>)
    requires GoodHall(k, w, orphans) && Usual(w.desk, Elsewhere(step))
    requires next == w.stage || ((w.stage.Listed? || w.stage.Keyed?) && (next.Keyed? || next.Resting?))
    ensures GoodHall(k, Hall(w.desk.(store := Take(w.desk.store, step).0), next), orphans)
  {
    hide Valid, Tidy, Take, Backed, GoodEntry, FreshID;
    assert FreshID(w.desk.store, step);
    TakeKeepsValid(w.desk.store, step);
    BackedBesides(w.desk.store, step, w.desk.inbox.entries, Standing(w, orphans));
    assert Standing(Hall(w.desk.(store := Take(w.desk.store, step).0), next), orphans) == Standing(w, orphans);
  }

  lemma StepKeepsGood(k: OfferDesk, w: Hall, e: HallEvent, orphans: set<nat>)
    requires GoodHall(k, w, orphans) && Ordinary(w, e)
    ensures GoodHall(k, HallStep(k, w, e), OrphansAfter(w, e, orphans))
  {
    hide Valid, Tidy, Take, Backed, GoodEntry, Reserving, Passes, FindByTransferID, FreshID;
    match e
    case Searches(o) => assert Standing(HallStep(k, w, e), orphans) == Standing(w, orphans);
    case Reserves(text, f) => if w.stage.Searched? { ReservesKeepsGood(k, w, text, f, orphans); }
    case Creates(id) => if w.stage.Placed? { CreatesKeepsGood(k, w, id, orphans); }
    case Keys =>
      if w.stage.Listed? {
        OwnStepIsUsual(w.desk, w.stage.jobID, AttachTransferKey(w.stage.key));
        WorkKeepsGood(k, w, On(w.stage.jobID, AttachTransferKey(w.stage.key)), HallStep(k, w, e).stage, orphans);
      }
    case Accepts =>
      if w.stage.Keyed? {
        OwnStepIsUsual(w.desk, w.stage.jobID, MarkAccepted);
        WorkKeepsGood(k, w, On(w.stage.jobID, MarkAccepted), HallStep(k, w, e).stage, orphans);
      }
    case Besides(step) => WorkKeepsGood(k, w, step, w.stage, orphans);
    case DiskTurns(_) => assert Standing(HallStep(k, w, e), orphans) == Standing(w, orphans);
  }

  lemma OwnStepIsUsual(w: Desk, id: string, op: JobOp)
    requires !op.AttachTransfer?
    ensures Usual(w, Elsewhere(On(id, op)))
  {
  }

  // ---- Over every run ----

  lemma {:induction false} HallStaysGood(k: OfferDesk, events: seq<HallEvent>)
    requires OrdinaryRun(k, events)
    ensures GoodHall(k, HallRun(k, events), Orphans(k, events))
    decreases |events|
  {
    hide HallStep, Ordinary, GoodHall, OrphansAfter;
    if events == [] {
      NobodyIsGood(k);
    } else {
      HallStaysGood(k, events[..|events| - 1]);
      StepKeepsGood(k, HallRun(k, events[..|events| - 1]), events[|events| - 1], Orphans(k, events[..|events| - 1]));
    }
  }

  lemma NobodyIsGood(k: OfferDesk)
    ensures GoodHall(k, NOBODY_YET, {})
  {
    EmptyStoreIsValid();
    EmptyIsTidy();
  }

  // Over every run, an inbox entry has its receive job if and only if it is not
  // that of the offer under way and its offer did not find the transfer bound
  // to another job when it came to create its own.
  lemma EntryHasJobExactly(k: OfferDesk, events: seq<HallEvent>, i: nat)
    requires OrdinaryRun(k, events) && i < |HallRun(k, events).desk.inbox.entries|
    ensures var w := HallRun(k, events);
      HasJob(w.desk.store.jobs, w.desk.inbox.entries[i]) <==> !IsPending(w, i) && i !in Orphans(k, events)
  {
    hide HallRun, OrdinaryRun, Orphans, Valid, GoodEntry, Backed, Tidy, HasJob;
    HallStaysGood(k, events);
    var w := HallRun(k, events);
    StandingHasJob(w.desk.store.jobs, w.desk.inbox, Standing(w, Orphans(k, events)), i);
  }

  lemma StandingHasJob(jobs: map<string, Job>, inbox: InboxState, standing: set<nat>, i: nat)
    requires Tidy(inbox) && Backed(jobs, inbox.entries, standing) && i < |inbox.entries|
    ensures HasJob(jobs, inbox.entries[i]) <==> i in standing
  {
    hide Matches;
    if HasJob(jobs, inbox.entries[i]) {
      var id :| id in jobs && Matches(jobs[id], inbox.entries[i]);
      MatchedTransfer(jobs[id], inbox.entries[i]);
      var j := PlaceIn(jobs, inbox.entries, standing, id);
    }
  }

  // The standing entry of a receive job.
  lemma PlaceIn(jobs: map<string, Job>, entries: seq<InboxEntry>, standing: set<nat>, id: string) returns (i: nat)
    requires Backed(jobs, entries, standing) && id in jobs && jobs[id].direction.Receive?
    ensures i in standing && i < |entries| && Matches(jobs[id], entries[i])
    ensures entries[i].destinationPath == jobs[id].destinationPath
  {
    hide Matches;
    assert HasPlace(jobs[id], entries, standing);
    i :| i in standing && i < |entries| && Matches(jobs[id], entries[i]);
    MatchedTransfer(jobs[id], entries[i]);
  }

  // And every receive job, whatever came in between, has its entry, comes from
  // a sender the policy allows, within its size, and shares its destination
  // with no other.
  lemma JobsHavePlaces(k: OfferDesk, events: seq<HallEvent>, id: string)
    requires OrdinaryRun(k, events)
    requires id in HallRun(k, events).desk.store.jobs && HallRun(k, events).desk.store.jobs[id].direction.Receive?
    ensures var w := HallRun(k, events).desk;
      var job := w.store.jobs[id];
      && HasEntry(job, w.inbox.entries)
      && Permitted(k.policy, job.fromAgentID, job.fileSizeBytes)
      && forall x :: x in w.store.jobs && x != id && w.store.jobs[x].direction.Receive? ==>
           w.store.jobs[x].destinationPath != job.destinationPath
  {
    hide HallRun, OrdinaryRun, Orphans, Valid, Standing;
    HallStaysGood(k, events);
    var w := HallRun(k, events).desk;
    var standing := Standing(HallRun(k, events), Orphans(k, events));
    var i := PlaceIn(w.store.jobs, w.inbox.entries, standing, id);
    assert w.inbox.entries[i] in w.inbox.entries && GoodEntry(k, w.inbox.entries[i]);
    forall x | x in w.store.jobs && x != id && w.store.jobs[x].direction.Receive?
      ensures w.store.jobs[x].destinationPath != w.store.jobs[id].destinationPath
    {
      var j := PlaceIn(w.store.jobs, w.inbox.entries, standing, x);
      BoundApart(w.store, id, x);
      assert i != j;
    }
  }

  // ---- Orphans do happen ----

  // A daemon offered its own transfer: the offer finds no job, its place is
  // reserved, and only then is the send job bound to the transfer.
  function OrphanEvents(o: Offer, send: SendInput, sendID: string, receiveID: string): seq<HallEvent> {
    [Besides(NewSend(sendID, send)), Searches(o), Reserves([], FINE), Besides(On(sendID, AttachTransfer(o.transferID, ""))),
     Creates(receiveID)]
  }

  lemma OrphanHappens(k: OfferDesk, o: Offer, send: SendInput, sendID: string, receiveID: string)
    requires Passes(k, o) && CheckOffer(Asked(o)).None? && CheckSend(send).None?
    requires sendID != "" && receiveID != "" && sendID != receiveID
    ensures var events := OrphanEvents(o, send, sendID, receiveID);
      var w := HallRun(k, events);
      && OrdinaryRun(k, events) && w.stage.Resting?
      && |w.desk.inbox.entries| == 1 && !HasJob(w.desk.store.jobs, w.desk.inbox.entries[0])
  {
    hide HallRun, OrdinaryRun, Orphans, HallStep, Ordinary, OrphansAfter, Passes;
    var events := OrphanEvents(o, send, sendID, receiveID);
    NothingHappened(k, events[..0]);
    OneMoreEvent(k, events, 0);
    OneMoreEvent(k, events, 1);
    OneMoreEvent(k, events, 2);
    OneMoreEvent(k, events, 3);
    OneMoreEvent(k, events, 4);
    assert events[..5] == events;
    SendBegins(k, o, send, sendID);
    ReservedFirst(k, HallRun(k, events[..1]), o, send, sendID);
    BoundMeanwhile(k, HallRun(k, events[..3]), o, send, sendID, receiveID);
    EntryHasJobExactly(k, events, 0);
  }

  lemma NothingHappened(k: OfferDesk, none: seq<HallEvent>)
    requires none == []
    ensures HallRun(k, none) == NOBODY_YET && OrdinaryRun(k, none) && Orphans(k, none) == {}
  {
  }

  lemma OneMoreEvent(k: OfferDesk, events: seq<HallEvent>, n: nat)
    requires n < |events|
    ensures HallRun(k, events[..n + 1]) == HallStep(k, HallRun(k, events[..n]), events[n])
    ensures OrdinaryRun(k, events[..n + 1]) <==> OrdinaryRun(k, events[..n]) && Ordinary(HallRun(k, events[..n]), events[n])
    ensures Orphans(k, events[..n + 1]) == OrphansAfter(HallRun(k, events[..n]), events[n], Orphans(k, events[..n]))
  {
    hide HallStep, Ordinary, OrphansAfter;
    assert events[..n + 1][..n] == events[..n];
  }

  lemma SendBegins(k: OfferDesk, o: Offer, send: SendInput, sendID: string)
    requires CheckSend(send).None? && sendID != ""
    ensures Ordinary(NOBODY_YET, Besides(NewSend(sendID, send)))
    ensures var w := HallStep(k, NOBODY_YET, Besides(NewSend(sendID, send)));
      && w.stage.Resting? && w.desk.inbox == EMPTY_INBOX && w.desk.disk == map[]
      && w.desk.store.jobs == map[sendID := SendJob(sendID, send, 1)]
  {
    hide FillEvent;
  }

  lemma ReservedFirst(k: OfferDesk, w: Hall, o: Offer, send: SendInput, sendID: string)
    requires Passes(k, o) && CheckOffer(Asked(o)).None?
    requires w.stage.Resting? && w.desk.inbox == EMPTY_INBOX && w.desk.disk == map[]
    requires w.desk.store.jobs == map[sendID := SendJob(sendID, send, 1)]
    ensures var t := HallStep(k, HallStep(k, w, Searches(o)), Reserves([], FINE));
      && Ordinary(w, Searches(o)) && Ordinary(HallStep(k, w, Searches(o)), Reserves([], FINE))
      && t.stage.Placed? && t.stage.offer == o && t.stage.entry.transferID == o.transferID
      && |t.desk.inbox.entries| == 1 && t.desk.store == w.desk.store
  {
    hide Candidate, Slot, Passes;
    assert Passes(k, o) ==> o.payload.Some? by { PassedHasPayload(k, o); }
    ReservesVariant(k.inboxDir, o.payload.value.fileName, 0, {});
    NothingReserved();
  }

  lemma PassedHasPayload(k: OfferDesk, o: Offer)
    requires Passes(k, o)
    ensures o.payload.Some?
  {
  }

  lemma BoundMeanwhile(k: OfferDesk, w: Hall, o: Offer, send: SendInput, sendID: string, receiveID: string)
    requires w.stage.Placed? && w.stage.offer == o && w.stage.entry.transferID == o.transferID != "" && |w.desk.inbox.entries| == 1
    requires w.desk.store.jobs == map[sendID := SendJob(sendID, send, 1)] && sendID != "" && receiveID != "" && sendID != receiveID
    ensures var bind := Besides(On(sendID, AttachTransfer(o.transferID, "")));
      var t := HallStep(k, w, bind);
      var u := HallStep(k, t, Creates(receiveID));
      && Ordinary(w, bind) && Ordinary(t, Creates(receiveID))
      && u.stage.Resting? && |u.desk.inbox.entries| == 1
      && forall orphans :: 0 in OrphansAfter(t, Creates(receiveID), OrphansAfter(w, bind, orphans))
  {
    hide Apply, CreateReceive, TransferIDTaken, CheckReceive;
    BindSucceeds(w.desk.store, sendID, o.transferID);
    var t := HallStep(k, w, Besides(On(sendID, AttachTransfer(o.transferID, ""))));
    assert t.desk.store.jobs[sendID].id == sendID;
    TakenByIt(t.desk.store, sendID, o.transferID);
    TakenIsRefused(t.desk.store, JobFor(o, w.stage.entry));
    RefusedCreate(t.desk.store, receiveID, JobFor(o, w.stage.entry));
  }

  lemma BindSucceeds(s: Store, id: string, transferID: string)
    requires s.jobs.Keys == {id} && s.jobs[id].id == id && s.jobs[id].status.Queued? && transferID != ""
    ensures Apply(s, id, AttachTransfer(transferID, "")).0.jobs
            == map[id := s.jobs[id].(transferID := transferID, agentTicket := "")]
  {
    hide FillEvent, Draft;
  }

  lemma TakenByIt(s: Store, id: string, transferID: string)
    requires id in s.jobs && s.jobs[id].transferID == transferID && s.jobs[id].id != ""
    ensures TransferIDTaken(s.jobs, transferID, "")
  {
  }

  lemma TakenIsRefused(s: Store, i: ReceiveInput)
    requires TransferIDTaken(s.jobs, i.transferID, "")
    ensures CheckReceive(s, i).Some?
  {
    hide TransferIDTaken;
  }
}
