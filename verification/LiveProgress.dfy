// What a live receive attempt has stored and reported at each moment of its
// loop (internal/agentd/backend_client.go, runLiveReceiverOnce).
module LiveProgress {
  import opened Wrappers
  import opened GoIntegers
  import opened ChunkCrypto
  import opened Frames
  import opened ReceiverProtocol
  import opened ReceiverLatch
  import opened Jobs
  import opened JobRuns

  // What the receiver tells its peer over the signaling channel.
  datatype Signal =
    | StartedSignal | ProgressSignal(bytes: int) | RetryableSignal(bytes: int) | FailedSignal | CompletedSignal

  // Between two steps of the attempt: a message arrives (and the disk answers
  // the write), the peer or the context goes away, or another goroutine moves
  // the job.
  datatype LiveEvent = Arrives(message: Wire, io: WriteReply) | PeerGone(reason: string) | JobMoves(op: JobOp)

  // What other goroutines of the daemon do to a receive job: accept, cancel and
  // failure messages, and the retryable and started messages of the peer. None
  // of them reports progress on it or completes it.
  predicate OutsideOp(op: JobOp) {
    op.MarkAccepted? || op.MarkConnecting? || op.MarkTransferring? || op.Interrupt? || op.MarkRetryable?
    || op.ClaimRetryable? || op.Fail? || op.Cancel?
  }

  predicate IsRunning(status: JobStatus) { status.Connecting? || status.Transferring? }

  // The job store, the receiver and the messages sent, in the loop.
  datatype Live = Live(store: Store, rx: RxState, sent: seq<Signal>)

  // OnProgress: store and report while the job is running.
  function Heard(x: Live, id: string, bytes: int64): Live {
    if id in x.store.jobs && !IsRunning(x.store.jobs[id].status) then x
    else x.(store := Apply(x.store, id, UpdateProgress(bytes)).0, sent := x.sent + [ProgressSignal(bytes)])
  }

  function LiveStep(c: RxConfig, id: string, x: Live, e: LiveEvent): Live {
    match e
    case JobMoves(op) => x.(store := Apply(x.store, id, op).0)
    case PeerGone(_) => x
    case Arrives(message, io) =>
      var (t, r) := AcceptStep(c, x.rx, message, io);
      if r == Ok(None) then Heard(x.(rx := t), id, t.offset) else x.(rx := t)
  }

  function LiveAt(c: RxConfig, id: string, x0: Live, events: seq<LiveEvent>): Live {
    if events == [] then x0 else LiveStep(c, id, LiveAt(c, id, x0, events[..|events| - 1]), events[|events| - 1])
  }

  // The loop goes on past moves of the job and accepted chunks only.
  predicate Stops(c: RxConfig, x: Live, e: LiveEvent) {
    e.PeerGone? || (e.Arrives? && AcceptStep(c, x.rx, e.message, e.io).1 != Ok(None))
  }

  predicate Lasts(c: RxConfig, id: string, x0: Live, events: seq<LiveEvent>) {
    events != [] ==>
      && Lasts(c, id, x0, events[..|events| - 1])
      && !Stops(c, LiveAt(c, id, x0, events[..|events| - 1]), events[|events| - 1])
  }

  function RunOf(events: seq<LiveEvent>): seq<Delivery> {
    if events == [] then []
    else
      var before, e := RunOf(events[..|events| - 1]), events[|events| - 1];
      if e.Arrives? then before + [Delivery(e.message, e.io)] else before
  }

  // The reports of a run: one for each chunk accepted, of the position after it.
  function Reports(c: RxConfig, rx0: RxState, run: seq<Delivery>): seq<Signal> {
    if run == [] then []
    else
      Reports(c, rx0, run[..|run| - 1])
      + if Play(c, rx0, run).results[|run| - 1] == Ok(None) then [ProgressSignal(Play(c, rx0, run).state.offset)] else []
  }

  predicate NoMoves(events: seq<LiveEvent>) { forall e :: e in events ==> !e.JobMoves? }

  lemma {:induction false} LiveReceiverPlays(c: RxConfig, id: string, x0: Live, events: seq<LiveEvent>)
    ensures LiveAt(c, id, x0, events).rx == Play(c, x0.rx, RunOf(events)).state
    decreases |events|
  {
    hide AcceptStep, Apply;
    if events != [] {
      LiveReceiverPlays(c, id, x0, events[..|events| - 1]);
      var e := events[|events| - 1];
      if e.Arrives? { OneMorePlayed(c, x0.rx, RunOf(events[..|events| - 1]), Delivery(e.message, e.io)); }
    }
  }

  lemma OneMorePlayed(c: RxConfig, s: RxState, run: seq<Delivery>, d: Delivery)
    ensures var p, q := Play(c, s, run), Play(c, s, run + [d]);
      q.state == AcceptStep(c, p.state, d.message, d.io).0 && q.results == p.results + [AcceptStep(c, p.state, d.message, d.io).1]
  {
    hide AcceptStep;
    assert (run + [d])[..|run|] == run;
  }

  lemma OneMoreReport(c: RxConfig, s: RxState, run: seq<Delivery>, d: Delivery)
    ensures var (t, r) := AcceptStep(c, Play(c, s, run).state, d.message, d.io);
      Reports(c, s, run + [d]) == Reports(c, s, run) + (if r == Ok(None) then [ProgressSignal(t.offset)] else [])
    ensures AcceptedChunks(Play(c, s, run + [d]).results)
            == AcceptedChunks(Play(c, s, run).results) + (if AcceptStep(c, Play(c, s, run).state, d.message, d.io).1 == Ok(None) then 1 else 0)
  {
    hide AcceptStep, Play;
    assert (run + [d])[..|run|] == run;
    OneMorePlayed(c, s, run, d);
    var p, q := Play(c, s, run), Play(c, s, run + [d]);
    assert q.results[..|run|] == p.results;
  }

  // What is stored of a position: it, if it is within the declared size.
  lemma ProgressStored(s: Store, id: string, p: int64)
    requires id in s.jobs && !s.jobs[id].status.IsTerminal()
    ensures var t := Apply(s, id, UpdateProgress(p)).0;
      id in t.jobs && t.jobs[id] == (if 0 <= p <= s.jobs[id].fileSizeBytes then s.jobs[id].(progressBytes := p) else s.jobs[id])
  {
    hide FillEvent, Draft;
  }

  // At any moment, whatever has moved the job before: a chunk accepted while it
  // is running is stored, as far as the declared size goes, and reported.
  lemma EachChunkIsReported(c: RxConfig, id: string, x: Live, message: Wire, io: WriteReply)
    requires id in x.store.jobs && (x.store.jobs[id].status.Connecting? || x.store.jobs[id].status.Transferring?)
    requires !Stops(c, x, Arrives(message, io))
    requires x.rx.offset == WrapInt64(|x.rx.hashed|)
    ensures var y := LiveStep(c, id, x, Arrives(message, io));
      && y.sent == x.sent + [ProgressSignal(y.rx.offset)] && y.rx.offset == WrapInt64(|y.rx.hashed|)
      && id in y.store.jobs
      && (|y.rx.hashed| <= x.store.jobs[id].fileSizeBytes ==>
            y.store.jobs[id] == x.store.jobs[id].(progressBytes := |y.rx.hashed|))
  {
    hide AcceptStep, Apply, WrapInt64;
    AcceptEffect(c, x.rx, message, io);
    var t := AcceptStep(c, x.rx, message, io).0;
    WrapInt64Adds(|x.rx.hashed|, |t.hashed| - |x.rx.hashed|);
    ProgressStored(x.store, id, t.offset);
  }

  lemma AcceptedStep(c: RxConfig, id: string, x: Live, message: Wire, io: WriteReply)
    requires id in x.store.jobs && AcceptStep(c, x.rx, message, io).1 == Ok(None)
    ensures var t := AcceptStep(c, x.rx, message, io).0;
      LiveStep(c, id, x, Arrives(message, io))
      == if x.store.jobs[id].status.Connecting? || x.store.jobs[id].status.Transferring?
         then Live(Apply(x.store, id, UpdateProgress(t.offset)).0, t, x.sent + [ProgressSignal(t.offset)])
         else x.(rx := t)
  {
    hide AcceptStep, Apply;
  }

  // While it is not, nothing is stored or reported, but the chunk is taken.
  lemma NotRunningIsSilent(c: RxConfig, id: string, x: Live, message: Wire, io: WriteReply)
    requires id in x.store.jobs && !x.store.jobs[id].status.Connecting? && !x.store.jobs[id].status.Transferring?
    ensures LiveStep(c, id, x, Arrives(message, io)) == x.(rx := AcceptStep(c, x.rx, message, io).0)
  {
    hide AcceptStep;
  }

  // While nothing else moves the job: every accepted chunk has been reported, in
  // order, nothing else has been said, and what is stored is the octets accepted
  // so far, as far as the declared size goes.
  lemma {:induction false} ProgressKeepsUp(c: RxConfig, id: string, x0: Live, events: seq<LiveEvent>)
    requires id in x0.store.jobs && (x0.store.jobs[id].status.Connecting? || x0.store.jobs[id].status.Transferring?) && Starting(x0.rx)
    requires NoMoves(events) && Lasts(c, id, x0, events)
    ensures var x := LiveAt(c, id, x0, events);
      && x.sent == x0.sent + Reports(c, x0.rx, RunOf(events))
      && id in x.store.jobs && x.store.jobs[id] == x0.store.jobs[id].(progressBytes := x.store.jobs[id].progressBytes)
      && x.rx.offset == WrapInt64(|x.rx.hashed|) && |x0.rx.hashed| <= |x.rx.hashed|
      && (AcceptedChunks(Play(c, x0.rx, RunOf(events)).results) == 0 ==> x.rx == x0.rx)
      && (|x.rx.hashed| <= x0.store.jobs[id].fileSizeBytes ==>
            x.store.jobs[id].progressBytes
            == if AcceptedChunks(Play(c, x0.rx, RunOf(events)).results) > 0 then |x.rx.hashed| else x0.store.jobs[id].progressBytes)
    decreases |events|
  {
    hide AcceptStep, Apply, LiveStep, WrapInt64, Play;
    if events == [] {
      NothingPlayed(c, x0.rx);
      assert x0.sent + [] == x0.sent;
    } else {
      var before, e := events[..|events| - 1], events[|events| - 1];
      assert forall y :: y in before ==> y in events;
      assert e in events;
      ProgressKeepsUp(c, id, x0, before);
      LiveReceiverPlays(c, id, x0, before);
      var x := LiveAt(c, id, x0, before);
      EachChunkIsReported(c, id, x, e.message, e.io);
      ChunkAdds(c, id, x, e);
      OneMoreReport(c, x0.rx, RunOf(before), Delivery(e.message, e.io));
    }
  }

  lemma NothingPlayed(c: RxConfig, s: RxState)
    ensures Play(c, s, []).results == [] && AcceptedChunks(Play(c, s, []).results) == 0
  {
  }

  lemma ChunkAdds(c: RxConfig, id: string, x: Live, e: LiveEvent)
    requires e.Arrives? && !Stops(c, x, e) && id in x.store.jobs && IsRunning(x.store.jobs[id].status)
    ensures var y := LiveStep(c, id, x, e);
      && |x.rx.hashed| <= |y.rx.hashed| && y.rx == AcceptStep(c, x.rx, e.message, e.io).0
      && id in y.store.jobs && y.store.jobs[id] == x.store.jobs[id].(progressBytes := y.store.jobs[id].progressBytes)
  {
    hide AcceptStep, Apply, WrapInt64;
    AcceptEffect(c, x.rx, e.message, e.io);
    ProgressStored(x.store, id, AcceptStep(c, x.rx, e.message, e.io).0.offset);
  }
}
