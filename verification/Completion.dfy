// The other half of the end-to-end result: a transfer that nothing disturbs
// does complete, on both sides, whether it starts afresh or resumes.
module Completion {
  import opened Wrappers
  import opened GoIntegers
  import opened ChunkCrypto
  import opened Frames
  import opened ReceiverProtocol
  import opened ReceiverLatch
  import opened SenderProtocol
  import opened StreamSimulation
  import opened PrefixSafety
  import opened Jobs
  import opened JobRuns
  import opened Files
  import opened Signaling
  import opened IncomingEnvelopes
  import opened LiveProgress
  import opened LiveReceiver
  import opened EndToEnd

  // ---- What a sender's stream is to its receiver ----

  function Shipment(c: TxConfig, source: Bytes, script: Script): seq<Delivery> {
    InOrder(Stream(c, source, script).state.sent)
  }

  // Every encrypted frame sent so far opens to a plaintext its sender sealed
  // for that very place.
  ghost predicate SentWasSealed(c: TxConfig, s: TxState) {
    forall f :: f in s.sent && f.encryption.Some? && c.encryption.Some? ==> WasSealed(c.encryption.value, s.sealed, f)
  }

  ghost predicate WasSealed(a: Aead, sealed: seq<SealedChunk>, f: Frame) {
    f.encryption.Some? &&
    exists r :: r in sealed && ChunkAAD(r.transferID, r.sequence, r.offset) == ChunkAAD(f.transferID, f.sequence, f.offset)
                && a.open(f.encryption.value.nonce, f.data, ChunkAAD(f.transferID, f.sequence, f.offset)) == Some(r.plaintext)
  }

  lemma SendKeepsSealed(c: TxConfig, s: TxState, plaintext: Bytes, io: ChunkIO)
    requires SentWasSealed(c, s) && (c.encryption.Some? ==> c.encryption.value.Correct())
    ensures SentWasSealed(c, SendStep(c, s, plaintext, io).0)
  {
    hide ChunkAAD, ValidateFrame;
    var t := SendStep(c, s, plaintext, io).0;
    assert s.sealed <= t.sealed;
    forall f | f in t.sent && f.encryption.Some? && c.encryption.Some? ensures WasSealed(c.encryption.value, t.sealed, f) {
      if f in s.sent {
        assert WasSealed(c.encryption.value, s.sealed, f);
      } else {
        assert t.sealed[|s.sealed|] in t.sealed;
      }
    }
  }

  lemma {:induction false} LoopKeepsSealed(c: TxConfig, s: TxState, turns: seq<Turn>)
    requires SentWasSealed(c, s) && (c.encryption.Some? ==> c.encryption.value.Correct())
    ensures SentWasSealed(c, ReadLoop(c, s, turns).state)
    decreases |turns|
  {
    hide SendStep, SentWasSealed;
    if turns != [] && !turns[0].cancelled {
      var turn := turns[0];
      if turn.data != [] { SendKeepsSealed(c, s, turn.data, turn.io); }
      var (t, e) := if turn.data != [] then SendStep(c, s, turn.data, turn.io) else (s, None);
      if e.None? && turn.end.More? { LoopKeepsSealed(c, t, turns[1..]); }
    }
  }

  lemma StreamSentWasSealed(c: TxConfig, source: Bytes, script: Script)
    requires c.encryption.Some? ==> c.encryption.value.Correct()
    ensures SentWasSealed(c, Stream(c, source, script).state)
  {
    hide SendStep, ReadLoop, ValidateFrame;
    if c.transferID != "" && (c.encryption.Some? || c.allowPlaintext) && StartSending(c, source).Ok? {
      var s := StartSending(c, source).value;
      LoopKeepsSealed(c, s, script.turns);
      var l := ReadLoop(c, s, script.turns).state;
      SendKeepsSealed(c, l, [], script.sentinel);
    }
  }

  // So the frames of a stream whose seals are all recorded are unforged.
  lemma ShipmentIsUnforged(c: TxConfig, r: RxConfig, source: Bytes, script: Script, log: set<SealedChunk>)
    requires Paired(c, r) && forall k :: k in Stream(c, source, script).state.sealed ==> k in log
    ensures UnforgedRun(r, log, Shipment(c, source, script))
  {
    hide Stream, ChunkAAD;
    StreamSentWasSealed(c, source, script);
    var s := Stream(c, source, script).state;
    var ds := Shipment(c, source, script);
    forall k | 0 <= k < |ds| ensures UnforgedDelivery(r, log, ds[k]) {
      assert s.sent[k] in s.sent && ds[k].message.frame == s.sent[k];
      if s.sent[k].encryption.Some? && c.encryption.Some? {
        assert WasSealed(c.encryption.value, s.sealed, s.sent[k]);
      }
    }
  }

  // A finished stream, played up to its manifest to the receiver it meets.
  lemma ShipmentPlays(c: TxConfig, r: RxConfig, source: Bytes, script: Script, rx0: RxState)
    requires Paired(c, r) && Meets(c, source, rx0) && |source| < TWO_TO_63
    requires Delivers(source[StartOffset(c)..], script.turns) && Stream(c, source, script).result.Finished?
    ensures var ds := Shipment(c, source, script);
      var m := Stream(c, source, script).result.manifest;
      && ds != []
      && var n := |ds| - 1;
         var q := Play(r, rx0, ds[..n]);
         && (forall k :: 0 <= k < n ==> q.results[k] == Ok(None))
         && rx0.hashed + q.state.written == source && q.state.offset == |source|
         && AcceptStep(r, q.state, ds[n].message, ds[n].io).1 == Ok(Some(m))
         && m.totalBytes == |source| && m.sha256Hex == r.digest(source)
  {
    hide Stream, AcceptStep, Meets;
    FinishedStreamIsReceived(c, r, source, script, rx0);
    var ds := Shipment(c, source, script);
    var n := |ds| - 1;
    var p := Play(r, rx0, ds);
    var q := Play(r, rx0, ds[..n]);
    assert p.results == q.results + [AcceptStep(r, q.state, ds[n].message, ds[n].io).1];
    assert forall k :: 0 <= k < n ==> q.results[k] == p.results[k];
    ManifestEffect(r, q.state, ds[n].message, ds[n].io);
  }

  // ---- The situation ----

  // The two agents have names, and different ones.
  predicate Named(u: Setup) {
    && u.transfer.toAgent.Some? && u.transfer.fromAgentID != "" && u.transfer.toAgent.value != ""
    && u.transfer.fromAgentID != u.transfer.toAgent.value
  }

  // An idle receiver whose destination is free, both jobs transferring, and two
  // agents, named and apart.
  ghost predicate ReadyWorld(u: Setup, x: World) {
    && Good(u, x) && x.phase.Idle? && u.destination !in x.disk
    && x.receiveStore.jobs[u.receiveID].status.Transferring?
    && ReadySender(u, x.sendStore.jobs[u.sendID])
    && Named(u)
  }

  predicate ReadySender(u: Setup, job: Job)
    requires u.transfer.toAgent.Some? && u.transfer.id in u.sources
  {
    job.status.Transferring? && job.direction.Send? && !job.browserLink && job.toAgentID == u.transfer.toAgent.value
    && job.fileSizeBytes == |Source(u)|
  }

  // A stream of the sender that runs to its end, that the receiver's next
  // attempt meets, all of its seals recorded.
  ghost predicate ReadyStream(u: Setup, c: TxConfig, script: Script, rx0: RxState)
    requires u.transfer.id in u.sources
  {
    && Paired(c, u.config) && Meets(c, Source(u), rx0)
    && Delivers(Source(u)[StartOffset(c)..], script.turns) && Stream(c, Source(u), script).result.Finished?
    && (forall k :: k in Stream(c, Source(u), script).state.sealed ==> k in u.log)
  }

  function StartOf(u: Setup, x: World, keep: nat, nextSeq: uint64): RxState {
    AttemptStart(PartialOf(u, x.disk), Attempt(keep, nextSeq, []))
  }

  lemma ReadyMeans(u: Setup, x: World)
    requires ReadyWorld(u, x)
    ensures WellSet(u) && u.transfer.id in u.sources && u.transfer.toAgent.Some? && |Source(u)| < TWO_TO_63
    ensures u.receiveID in x.receiveStore.jobs && u.sendID in x.sendStore.jobs && x.phase.Idle?
    ensures u.destination !in x.disk && PartialPath(u.destination) != u.destination
    ensures x.receiveStore.jobs[u.receiveID].fileSizeBytes == |Source(u)|
    ensures Valid(x.sendStore) && x.sendStore.jobs[u.sendID].transferID == u.transfer.id != ""
    ensures Named(u) && x.receiveStore.jobs[u.receiveID].status.Transferring?
  {
    hide HonestLog, Valid;
    assert |PartialPath(u.destination)| > |u.destination|;
  }

  lemma TransferIsSet(u: Setup)
    requires WellSet(u)
    ensures u.transfer.toAgent.Some? && u.transfer.id in u.sources
  {
  }

  // The recipient's messages pass the server.
  lemma RecipientIsRouted(u: Setup, w: World, e: Envelope)
    requires WellSet(u)
    requires Named(u)
    requires e == Announcement(u) || exists n :: e == Report(u, n)
    ensures Routed(u, w, TokenSocket(u.transfer.toAgent.value), e) == w.(routed := w.routed + {e})
  {
    hide HonestLog;
  }

  lemma OneMoreMove(u: Setup, w: World, moves: seq<Move>, move: Move)
    requires WellSet(u) && Possible(u, w, moves)
    requires u.receiveID in Reached(u, w, moves).receiveStore.jobs && Enabled(u, Reached(u, w, moves), move)
    ensures Possible(u, w, moves + [move])
    ensures Reached(u, w, moves + [move]) == After(u, Reached(u, w, moves), move)
  {
    hide WellSet, Enabled, After;
    assert (moves + [move])[..|moves|] == moves;
  }

  // ---- The chunks arrive, each reported ----

  function Arrivals(ds: seq<Delivery>): seq<Move> { seq(|ds|, i requires 0 <= i < |ds| => Deliver(ds[i], true)) }

  // The reports sent while these chunks arrive.
  function Reports(u: Setup, rx0: RxState, ds: seq<Delivery>): set<Envelope>
    requires u.transfer.toAgent.Some?
  {
    if ds == [] then {}
    else Reports(u, rx0, ds[..|ds| - 1]) + {Report(u, Play(u.config, rx0, ds).state.offset)}
  }

  // The world with the receiver here, after these reports.
  function Holding(u: Setup, x: World, rx0: RxState, s: RxState, reports: set<Envelope>): World {
    x.(disk := x.disk[PartialPath(u.destination) := rx0.hashed + s.written], phase := Receiving(s), routed := x.routed + reports)
  }

  lemma ChunkArrives(u: Setup, x: World, rx0: RxState, s: RxState, reports: set<Envelope>, d: Delivery)
    requires WellSet(u)
    requires Named(u)
    requires AcceptStep(u.config, s, d.message, d.io).1 == Ok(None)
    ensures var t := AcceptStep(u.config, s, d.message, d.io).0;
      After(u, Holding(u, x, rx0, s, reports), Deliver(d, true)) == Holding(u, x, rx0, t, reports + {Report(u, t.offset)})
  {
    hide AcceptStep, ChunkPlaintext, WellSet, Routed;
    TransferIsSet(u);
    AcceptEffect(u.config, s, d.message, d.io);
    var t := AcceptStep(u.config, s, d.message, d.io).0;
    RecipientIsRouted(u, Holding(u, x, rx0, s, reports), Report(u, t.offset));
    assert rx0.hashed + s.written + t.written[|s.written|..] == rx0.hashed + t.written;
    assert x.routed + reports + {Report(u, t.offset)} == x.routed + (reports + {Report(u, t.offset)});
  }

  lemma ManifestArrives(u: Setup, x: World, rx0: RxState, s: RxState, reports: set<Envelope>, d: Delivery, m: Manifest)
    requires u.transfer.toAgent.Some? && AcceptStep(u.config, s, d.message, d.io).1 == Ok(Some(m))
    ensures var h := Holding(u, x, rx0, s, reports);
      After(u, h, Deliver(d, true)) == h.(phase := GotManifest(m))
  {
    hide AcceptStep, ChunkPlaintext, Routed;
    AcceptEffect(u.config, s, d.message, d.io);
    ManifestEffect(u.config, s, d.message, d.io);
    assert rx0.hashed + s.written + [] == rx0.hashed + s.written;
  }

  lemma DeliverIsEnabled(u: Setup, w: World, d: Delivery)
    requires WellSet(u) && u.receiveID in w.receiveStore.jobs && w.phase.Receiving? && UnforgedDelivery(u.config, u.log, d)
    ensures Enabled(u, w, Deliver(d, true))
  {
    hide WellSet, UnforgedDelivery;
  }

  lemma {:induction false} ChunksArrive(u: Setup, x: World, before: seq<Move>, rx0: RxState, ds: seq<Delivery>)
    requires WellSet(u) && Possible(u, x, before) && u.receiveID in x.receiveStore.jobs
    requires Named(u)
    requires Reached(u, x, before) == Holding(u, x, rx0, rx0, {})
    requires UnforgedRun(u.config, u.log, ds)
    requires forall k :: 0 <= k < |ds| ==> Play(u.config, rx0, ds).results[k] == Ok(None)
    ensures Possible(u, x, before + Arrivals(ds))
    ensures Reached(u, x, before + Arrivals(ds)) == Holding(u, x, rx0, Play(u.config, rx0, ds).state, Reports(u, rx0, ds))
    decreases |ds|
  {
    hide AcceptStep, After, WellSet, UnforgedDelivery, UnforgedRun, Enabled, Possible, Reached, Named;
    TransferIsSet(u);
    if ds == [] {
      assert before + Arrivals(ds) == before;
    } else {
      var ds' := ds[..|ds| - 1];
      var d := ds[|ds| - 1];
      LastChunk(u.config, rx0, ds);
      LastUnforged(u.config, u.log, ds);
      ChunksArrive(u, x, before, rx0, ds');
      var p := Play(u.config, rx0, ds');
      DeliverIsEnabled(u, Holding(u, x, rx0, p.state, Reports(u, rx0, ds')), d);
      OneMoreMove(u, x, before + Arrivals(ds'), Deliver(d, true));
      assert Arrivals(ds) == Arrivals(ds') + [Deliver(d, true)];
      assert before + Arrivals(ds) == before + Arrivals(ds') + [Deliver(d, true)];
      ChunkArrives(u, x, rx0, p.state, Reports(u, rx0, ds'), d);
    }
  }

  lemma LastChunk(c: RxConfig, rx0: RxState, ds: seq<Delivery>)
    requires ds != [] && forall k :: 0 <= k < |ds| ==> Play(c, rx0, ds).results[k] == Ok(None)
    ensures var n := |ds| - 1;
      var p := Play(c, rx0, ds[..n]);
      && (forall k :: 0 <= k < n ==> p.results[k] == Ok(None))
      && AcceptStep(c, p.state, ds[n].message, ds[n].io).1 == Ok(None)
      && Play(c, rx0, ds).state == AcceptStep(c, p.state, ds[n].message, ds[n].io).0
  {
    hide AcceptStep;
    var n := |ds| - 1;
    var p := Play(c, rx0, ds[..n]);
    assert forall k :: 0 <= k < n ==> p.results[k] == Play(c, rx0, ds).results[k];
    assert Play(c, rx0, ds).results[n] == Ok(None);
  }

  lemma LastUnforged(c: RxConfig, log: set<SealedChunk>, ds: seq<Delivery>)
    requires UnforgedRun(c, log, ds) && ds != []
    ensures UnforgedRun(c, log, ds[..|ds| - 1]) && UnforgedDelivery(c, log, ds[|ds| - 1])
  {
    hide UnforgedDelivery;
  }

  lemma StartIsHolding(u: Setup, x: World, keep: nat, nextSeq: uint64)
    requires WellSet(u) && x.phase.Idle? && u.receiveID in x.receiveStore.jobs
    ensures var rx0 := StartOf(u, x, keep, nextSeq);
      && Enabled(u, x, StartAttempt(keep, nextSeq))
      && After(u, x, StartAttempt(keep, nextSeq)) == Holding(u, x, rx0, rx0, {})
  {
    hide WellSet;
    var rx0 := StartOf(u, x, keep, nextSeq);
    assert rx0.hashed + rx0.written == rx0.hashed;
    assert x.routed + {} == x.routed;
  }

  // ---- The reports are heard ----

  // The sender's store once the last report has been heard, if there was one.
  ghost function Informed(u: Setup, x: World, chunks: nat): Store
    requires u.transfer.toAgent.Some? && u.transfer.id in u.sources
  {
    if chunks == 0 then x.sendStore else Hear(x.sendStore, u.transfer.fromAgentID, Report(u, |Source(u)|), false)
  }

  function HearLast(u: Setup, chunks: nat): seq<Move>
    requires u.transfer.toAgent.Some? && u.transfer.id in u.sources
  {
    if chunks == 0 then [] else [SenderHears(Report(u, |Source(u)|), false)]
  }

  // Then it knows the whole size has arrived.
  lemma InformedSender(u: Setup, x: World, chunks: nat)
    requires ReadyWorld(u, x)
    ensures var s, t := x.sendStore, Informed(u, x, chunks);
      && Valid(t) && u.sendID in t.jobs
      && t.jobs[u.sendID] == (if chunks == 0 then s.jobs[u.sendID] else s.jobs[u.sendID].(progressBytes := |Source(u)|))
  {
    hide HonestLog, Valid, HandleState;
    ReadyMeans(u, x);
    if chunks > 0 {
      ProgressHeard(x.sendStore, u.sendID, u.transfer.fromAgentID, Report(u, |Source(u)|), |Source(u)|);
      HandlingKeepsValid(x.sendStore, u.transfer.fromAgentID, Report(u, |Source(u)|));
    }
  }

  // The announcement, handled: the sender completes if and only if its stored
  // progress is its whole size.
  lemma AnnouncementHeardExactly(u: Setup, s: Store, id: string)
    requires u.transfer.toAgent.Some? && u.transfer.id != "" && Valid(s) && id in s.jobs
    requires s.jobs[id].transferID == u.transfer.id && s.jobs[id].direction.Send? && !s.jobs[id].browserLink
    requires s.jobs[id].toAgentID == u.transfer.toAgent.value && s.jobs[id].status.Transferring?
    ensures var t := HandleState(s, u.transfer.fromAgentID, Announcement(u)).0;
      id in t.jobs && (t.jobs[id].status.Completed? <==> s.jobs[id].progressBytes == s.jobs[id].fileSizeBytes)
  {
    hide Valid, HandleState;
    CompletionHeardExactly(s, id, u.transfer.fromAgentID, Announcement(u));
  }

  // ---- The moves, one by one ----

  lemma HearsMove(u: Setup, y: World, e: Envelope)
    requires WellSet(u) && u.receiveID in y.receiveStore.jobs && e in y.routed
    ensures Enabled(u, y, SenderHears(e, false))
    ensures After(u, y, SenderHears(e, false)) == y.(sendStore := HandleState(y.sendStore, u.transfer.fromAgentID, e).0)
  {
    hide WellSet, HandleState;
  }

  // A world at the manifest of the whole source, its destination free.
  ghost predicate AtManifest(u: Setup, y: World, m: Manifest)
    requires u.transfer.id in u.sources
  {
    && y.phase == GotManifest(m) && Describes(m, u.config.digest, Source(u))
    && PartialPath(u.destination) in y.disk && y.disk[PartialPath(u.destination)] == Source(u)
    && u.destination !in y.disk
    && u.receiveID in y.receiveStore.jobs && y.receiveStore.jobs[u.receiveID].fileSizeBytes == |Source(u)|
  }

  function CopyingWorld(u: Setup, y: World, m: Manifest): World
    requires u.transfer.id in u.sources && PartialPath(u.destination) in y.disk
  {
    y.(disk := CopyOf(y.disk, PartialPath(u.destination), u.destination, |Source(u)|), phase := Copying(m, |Source(u)|))
  }

  lemma CommitCopiesAll(u: Setup, y: World, m: Manifest)
    requires WellSet(u) && AtManifest(u, y, m)
    ensures Enabled(u, y, CommitOpens)
    ensures var z := After(u, y, CommitOpens);
      && u.receiveID in z.receiveStore.jobs && Enabled(u, z, CommitCopies(|Source(u)|))
      && After(u, z, CommitCopies(|Source(u)|)) == CopyingWorld(u, y, m)
  {
    hide HonestLog, CopyOf;
    OpenedAndCopied(u, y, |Source(u)|);
  }

  lemma CommitEndsWell(u: Setup, y: World, m: Manifest)
    requires WellSet(u) && AtManifest(u, y, m)
    ensures var z := CopyingWorld(u, y, m);
      && u.receiveID in z.receiveStore.jobs && Enabled(u, z, CommitEnds(Dropped))
      && After(u, z, CommitEnds(Dropped)) == z.(disk := z.disk - {PartialPath(u.destination)}, phase := Committed)
  {
    hide HonestLog;
    assert |PartialPath(u.destination)| > |u.destination|;
  }

  lemma CompleteSucceeds(s: Store, id: string)
    requires id in s.jobs && s.jobs[id].status.Transferring?
    ensures var t := Apply(s, id, Complete).0; id in t.jobs && t.jobs[id].status.Completed?
  {
    hide FillEvent, Draft;
  }

  lemma ReceiverCompletes(u: Setup, y: World)
    requires WellSet(u) && y.phase.Committed?
    requires u.receiveID in y.receiveStore.jobs && y.receiveStore.jobs[u.receiveID].status.Transferring?
    ensures Enabled(u, y, CompleteReceive)
    ensures var z := After(u, y, CompleteReceive);
      && z == y.(receiveStore := z.receiveStore, phase := Announcing)
      && u.receiveID in z.receiveStore.jobs && z.receiveStore.jobs[u.receiveID].status.Completed?
  {
    hide WellSet, Apply;
    CompleteSucceeds(y.receiveStore, u.receiveID);
  }

  lemma Announces(u: Setup, y: World)
    requires WellSet(u) && y.phase.Announcing? && u.receiveID in y.receiveStore.jobs
    requires Named(u)
    ensures Enabled(u, y, Announce)
    ensures After(u, y, Announce) == y.(routed := y.routed + {Announcement(u)}, phase := Idle)
  {
    hide WellSet, Routed;
    TransferIsSet(u);
    RecipientIsRouted(u, y, Announcement(u));
  }

  lemma CommitMoves(u: Setup, x: World, before: seq<Move>, m: Manifest)
    requires WellSet(u) && Possible(u, x, before) && AtManifest(u, Reached(u, x, before), m)
    ensures PartialPath(u.destination) in Reached(u, x, before).disk
    ensures var moves := before + [CommitOpens] + [CommitCopies(|Source(u)|)] + [CommitEnds(Dropped)];
      var z := CopyingWorld(u, Reached(u, x, before), m);
      && Possible(u, x, moves)
      && Reached(u, x, moves) == z.(disk := z.disk - {PartialPath(u.destination)}, phase := Committed)
  {
    hide WellSet, Enabled, After, AtManifest, CopyOf;
    TransferIsSet(u);
    var y := Reached(u, x, before);
    ManifestWorld(u, y, m);
    CommitCopiesAll(u, y, m);
    OneMoreMove(u, x, before, CommitOpens);
    OneMoreMove(u, x, before + [CommitOpens], CommitCopies(|Source(u)|));
    CommitEndsWell(u, y, m);
    OneMoreMove(u, x, before + [CommitOpens] + [CommitCopies(|Source(u)|)], CommitEnds(Dropped));
  }

  lemma ClosingMoves(u: Setup, x: World, before: seq<Move>)
    requires WellSet(u) && Possible(u, x, before) && Reached(u, x, before).phase.Committed?
    requires u.receiveID in Reached(u, x, before).receiveStore.jobs
    requires Reached(u, x, before).receiveStore.jobs[u.receiveID].status.Transferring?
    requires Named(u)
    ensures var moves := before + [CompleteReceive] + [Announce] + [SenderHears(Announcement(u), false)];
      && Possible(u, x, moves)
      && Reached(u, x, moves).sendStore
         == HandleState(Reached(u, x, before).sendStore, u.transfer.fromAgentID, Announcement(u)).0
      && u.receiveID in Reached(u, x, moves).receiveStore.jobs
      && Reached(u, x, moves).receiveStore.jobs[u.receiveID].status.Completed?
  {
    hide WellSet, Enabled, After, HandleState;
    TransferIsSet(u);
    var e := Reached(u, x, before);
    ReceiverCompletes(u, e);
    OneMoreMove(u, x, before, CompleteReceive);
    var f := After(u, e, CompleteReceive);
    Announces(u, f);
    OneMoreMove(u, x, before + [CompleteReceive], Announce);
    var g := After(u, f, Announce);
    HearsMove(u, g, Announcement(u));
    OneMoreMove(u, x, before + [CompleteReceive] + [Announce], SenderHears(Announcement(u), false));
  }

  // From the manifest to the announcement, handled.
  lemma FinishingMoves(u: Setup, x: World, before: seq<Move>, m: Manifest)
    requires WellSet(u) && Possible(u, x, before)
    requires AtManifest(u, Reached(u, x, before), m)
    requires Reached(u, x, before).receiveStore.jobs[u.receiveID].status.Transferring?
    requires Named(u)
    ensures Possible(u, x, before + Finish(u))
    ensures var y, t := Reached(u, x, before), Reached(u, x, before + Finish(u));
      && t.sendStore == HandleState(y.sendStore, u.transfer.fromAgentID, Announcement(u)).0
      && u.receiveID in t.receiveStore.jobs && t.receiveStore.jobs[u.receiveID].status.Completed?
  {
    hide WellSet, Reached, Possible, AtManifest, HandleState, CopyOf;
    TransferIsSet(u);
    ManifestWorld(u, Reached(u, x, before), m);
    CommitMoves(u, x, before, m);
    var committed := before + [CommitOpens] + [CommitCopies(|Source(u)|)] + [CommitEnds(Dropped)];
    ClosingMoves(u, x, committed);
    assert before + Finish(u) == committed + [CompleteReceive] + [Announce] + [SenderHears(Announcement(u), false)];
  }

  lemma ManifestWorld(u: Setup, y: World, m: Manifest)
    requires u.transfer.id in u.sources && AtManifest(u, y, m)
    ensures PartialPath(u.destination) in y.disk && u.receiveID in y.receiveStore.jobs
  {
  }

  function Finish(u: Setup): seq<Move>
    requires u.transfer.toAgent.Some? && u.transfer.id in u.sources
  {
    [CommitOpens, CommitCopies(|Source(u)|), CommitEnds(Dropped), CompleteReceive, Announce, SenderHears(Announcement(u), false)]
  }

  // ---- The whole run ----

  function UpToManifest(u: Setup, keep: nat, nextSeq: uint64, ds: seq<Delivery>): seq<Move>
    requires u.transfer.toAgent.Some? && u.transfer.id in u.sources && ds != []
  {
    var n := |ds| - 1;
    [StartAttempt(keep, nextSeq)] + Arrivals(ds[..n]) + HearLast(u, n) + [Deliver(ds[n], true)]
  }

  // All that happens when nothing goes wrong: the attempt starts, every chunk
  // arrives and is reported, the last report is heard, the manifest arrives,
  // and the file is committed, completed, announced.
  function Undisturbed(u: Setup, keep: nat, nextSeq: uint64, ds: seq<Delivery>): seq<Move>
    requires u.transfer.toAgent.Some? && u.transfer.id in u.sources && ds != []
  {
    UpToManifest(u, keep, nextSeq, ds) + Finish(u)
  }

  // Up to the manifest, on what its frames do.
  lemma ChunksHeard(u: Setup, x: World, keep: nat, nextSeq: uint64, ds: seq<Delivery>)
    requires WellSet(u) && Named(u) && x.phase.Idle? && u.receiveID in x.receiveStore.jobs
    requires UnforgedRun(u.config, u.log, ds)
    requires var q := Play(u.config, StartOf(u, x, keep, nextSeq), ds);
      (forall k :: 0 <= k < |ds| ==> q.results[k] == Ok(None)) && q.state.offset == |Source(u)|
    ensures var rx0 := StartOf(u, x, keep, nextSeq);
      var moves := [StartAttempt(keep, nextSeq)] + Arrivals(ds) + HearLast(u, |ds|);
      && Possible(u, x, moves)
      && Reached(u, x, moves)
         == Holding(u, x.(sendStore := Informed(u, x, |ds|)), rx0, Play(u.config, rx0, ds).state, Reports(u, rx0, ds))
  {
    hide AcceptStep, UnforgedRun, After, Enabled, WellSet, Play, Informed, HearLast, Named, Reports, StartOf, Arrivals, Holding;
    TransferIsSet(u);
    var rx0 := StartOf(u, x, keep, nextSeq);
    var start := [StartAttempt(keep, nextSeq)];
    StartIsHolding(u, x, keep, nextSeq);
    assert [] + start == start;
    OneMoreMove(u, x, [], StartAttempt(keep, nextSeq));
    ChunksArrive(u, x, start, rx0, ds);
    LastReportHeard(u, x, start + Arrivals(ds), rx0, Play(u.config, rx0, ds).state, ds);
  }

  lemma LastFrameArrives(u: Setup, x: World, before: seq<Move>, y: World, rx0: RxState, s: RxState, reports: set<Envelope>,
                         d: Delivery, m: Manifest)
    requires WellSet(u) && Possible(u, x, before) && Reached(u, x, before) == Holding(u, y, rx0, s, reports)
    requires u.receiveID in y.receiveStore.jobs && UnforgedDelivery(u.config, u.log, d)
    requires AcceptStep(u.config, s, d.message, d.io).1 == Ok(Some(m))
    ensures Possible(u, x, before + [Deliver(d, true)])
    ensures Reached(u, x, before + [Deliver(d, true)]) == Holding(u, y, rx0, s, reports).(phase := GotManifest(m))
  {
    hide AcceptStep, UnforgedDelivery, After, Enabled, WellSet, Possible, Reached;
    TransferIsSet(u);
    DeliverIsEnabled(u, Holding(u, y, rx0, s, reports), d);
    OneMoreMove(u, x, before, Deliver(d, true));
    ManifestArrives(u, y, rx0, s, reports, d, m);
  }

  // The whole stream has arrived, and the sender knows.
  ghost predicate HasArrived(u: Setup, x: World, moves: seq<Move>, chunks: nat, m: Manifest)
    requires WellSet(u)
  {
    && Possible(u, x, moves) && AtManifest(u, Reached(u, x, moves), m)
    && Reached(u, x, moves).receiveStore == x.receiveStore && Reached(u, x, moves).sendStore == Informed(u, x, chunks)
  }

  // The frames of a stream, as the receiver that starts here takes them.
  ghost predicate Plays(u: Setup, rx0: RxState, ds: seq<Delivery>, m: Manifest)
    requires u.transfer.id in u.sources && ds != []
  {
    && UnforgedRun(u.config, u.log, ds)
    && var n := |ds| - 1;
       var q := Play(u.config, rx0, ds[..n]);
       && (forall k :: 0 <= k < n ==> q.results[k] == Ok(None))
       && rx0.hashed + q.state.written == Source(u) && q.state.offset == |Source(u)|
       && AcceptStep(u.config, q.state, ds[n].message, ds[n].io).1 == Ok(Some(m))
       && Describes(m, u.config.digest, Source(u))
  }

  lemma FramesArrive(u: Setup, x: World, keep: nat, nextSeq: uint64, ds: seq<Delivery>, m: Manifest)
    requires WellSet(u) && ReadyWorld(u, x) && ds != [] && Plays(u, StartOf(u, x, keep, nextSeq), ds, m)
    ensures HasArrived(u, x, UpToManifest(u, keep, nextSeq, ds), |ds| - 1, m)
  {
    hide AcceptStep, Play, ReadyWorld, Informed, Possible, Reached, HearLast, Reports, UnforgedRun, UnforgedDelivery,
         Arrivals, Named, AtManifest, Holding, WellSet, StartOf, Describes;
    ReadyMeans(u, x);
    var rx0 := StartOf(u, x, keep, nextSeq);
    var n := |ds| - 1;
    LastUnforged(u.config, u.log, ds);
    ChunksHeard(u, x, keep, nextSeq, ds[..n]);
    var s, reports := Play(u.config, rx0, ds[..n]).state, Reports(u, rx0, ds[..n]);
    var told := x.(sendStore := Informed(u, x, n));
    LastFrameArrives(u, x, [StartAttempt(keep, nextSeq)] + Arrivals(ds[..n]) + HearLast(u, n), told, rx0, s, reports, ds[n], m);
    AllArrived(u, told, rx0, s, reports, m);
  }

  lemma StreamPlays(u: Setup, c: TxConfig, script: Script, rx0: RxState)
    requires u.transfer.id in u.sources && |Source(u)| < TWO_TO_63 && ReadyStream(u, c, script, rx0)
    ensures Shipment(c, Source(u), script) != []
    ensures Plays(u, rx0, Shipment(c, Source(u), script), Stream(c, Source(u), script).result.manifest)
  {
    hide Stream, AcceptStep, Play, Shipment, Delivers, Paired, Meets, UnforgedRun;
    ShipmentPlays(c, u.config, Source(u), script, rx0);
    ShipmentIsUnforged(c, u.config, Source(u), script, u.log);
  }

  lemma AllArrived(u: Setup, x: World, rx0: RxState, s: RxState, reports: set<Envelope>, m: Manifest)
    requires u.transfer.id in u.sources && rx0.hashed + s.written == Source(u) && Describes(m, u.config.digest, Source(u))
    requires u.destination !in x.disk && PartialPath(u.destination) != u.destination
    requires u.receiveID in x.receiveStore.jobs && x.receiveStore.jobs[u.receiveID].fileSizeBytes == |Source(u)|
    ensures var y := Holding(u, x, rx0, s, reports).(phase := GotManifest(m));
      AtManifest(u, y, m) && y.receiveStore == x.receiveStore && y.sendStore == x.sendStore
  {
  }

  lemma LastReportHeard(u: Setup, x: World, before: seq<Move>, rx0: RxState, s: RxState, ds: seq<Delivery>)
    requires WellSet(u) && u.receiveID in x.receiveStore.jobs && Possible(u, x, before)
    requires s == Play(u.config, rx0, ds).state && s.offset == |Source(u)|
    requires Reached(u, x, before) == Holding(u, x, rx0, s, Reports(u, rx0, ds))
    ensures Possible(u, x, before + HearLast(u, |ds|))
    ensures Reached(u, x, before + HearLast(u, |ds|))
            == Holding(u, x.(sendStore := Informed(u, x, |ds|)), rx0, s, Reports(u, rx0, ds))
  {
    hide WellSet, Enabled, After, HandleState, Play;
    TransferIsSet(u);
    if |ds| == 0 {
      assert before + HearLast(u, |ds|) == before;
    } else {
      var h := Holding(u, x, rx0, s, Reports(u, rx0, ds));
      assert Report(u, |Source(u)|) in h.routed;
      HearsMove(u, h, Report(u, |Source(u)|));
      OneMoreMove(u, x, before, SenderHears(Report(u, |Source(u)|), false));
    }
  }

  lemma FramesComplete(u: Setup, x: World, keep: nat, nextSeq: uint64, ds: seq<Delivery>, m: Manifest)
    requires WellSet(u) && ReadyWorld(u, x) && ds != [] && Plays(u, StartOf(u, x, keep, nextSeq), ds, m)
    ensures Completes(u, x, Undisturbed(u, keep, nextSeq, ds), |ds| - 1)
  {
    hide Plays, HandleState, Informed, AtManifest, Possible, Reached, Valid, GoodPhase, GoodDestination, GoodDisk, Delivered,
         UpToManifest, Finish, HonestLog, StartOf;
    ReadyMeans(u, x);
    FramesArrive(u, x, keep, nextSeq, ds, m);
    FinishingMoves(u, x, UpToManifest(u, keep, nextSeq, ds), m);
    ReachedStaysGood(u, x, Undisturbed(u, keep, nextSeq, ds));
    InformedSender(u, x, |ds| - 1);
    AnnouncementHeardExactly(u, Informed(u, x, |ds| - 1), u.sendID);
  }

  // This run is possible, and at its end the file is delivered, the receiver is
  // Completed, and the sender is if it knew or has learnt that all has arrived.
  ghost predicate Completes(u: Setup, x: World, moves: seq<Move>, chunks: nat)
    requires WellSet(u) && u.sendID in x.sendStore.jobs
  {
    && Possible(u, x, moves)
    && var t := Reached(u, x, moves);
       && Good(u, t) && t.receiveStore.jobs[u.receiveID].status.Completed? && Delivered(u, t.disk)
       && (t.sendStore.jobs[u.sendID].status.Completed? <==>
             chunks > 0 || x.sendStore.jobs[u.sendID].progressBytes == |Source(u)|)
  }

  // A finished stream that arrives undisturbed, fresh or resumed, is committed
  // and completes the receiver; and the sender completes if and only if its
  // stored progress is its whole size when it hears the announcement: because
  // a chunk arrived and its report was heard, or, when nothing was left to
  // send, because it knew already.
  lemma UndisturbedTransferCompletes(u: Setup, x: World, c: TxConfig, script: Script, keep: nat, nextSeq: uint64)
    requires ReadyWorld(u, x) && ReadyStream(u, c, script, StartOf(u, x, keep, nextSeq))
    ensures var ds := Shipment(c, Source(u), script);
      ds != [] && Completes(u, x, Undisturbed(u, keep, nextSeq, ds), |ds| - 1)
  {
    hide Stream, Shipment, HandleState, Plays, StartOf, Paired, Meets, Delivers, ReadyWorld, Completes, Undisturbed;
    ReadyMeans(u, x);
    StreamPlays(u, c, script, StartOf(u, x, keep, nextSeq));
    FramesComplete(u, x, keep, nextSeq, Shipment(c, Source(u), script), Stream(c, Source(u), script).result.manifest);
  }
}
