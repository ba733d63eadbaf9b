// Transfers that are cut and resumed any number of times.
module ResumeChain {
  import opened Wrappers
  import opened GoIntegers
  import opened ChunkCrypto
  import opened Frames
  import opened ReceiverProtocol
  import opened ReceiverLatch
  import opened SenderProtocol
  import opened StreamSimulation
  import opened Resume

  // One transfer between two ends that share a key
  // (LocalWebRTCTransferRunner.runEncryptedLocalWebRTC).
  datatype Link = Link(transferID: string, cipher: Aead, chunkSize: int64, digest: Hash)
  {
    ghost predicate Sound() { transferID != "" && cipher.Correct() }
    function Rx(): RxConfig { RxConfig(transferID, ReceiverOptions(Some(cipher), true, false), digest) }
    function Tx(resume: Option<ResumeManifest>): TxConfig { TxConfig(transferID, Some(cipher), false, resume, digest) }
  }

  // One attempt: everything that happens to the sender, and how many of the
  // frames it sent reach the receiver before the cut.
  datatype Leg = Leg(script: Script, delivered: nat)

  // The partial file, the plaintext bytes accepted so far, and the manifest
  // once an attempt has finished.
  datatype Progress = Progress(part: Option<Bytes>, accepted: nat, done: Option<Manifest>)

  function Held(part: Option<Bytes>): Bytes { if part.Some? then part.value else [] }

  function LegFrames(l: Link, source: Bytes, resume: Option<ResumeManifest>, leg: Leg): seq<Frame> {
    var sent := Stream(l.Tx(resume), source, leg.script).state.sent;
    if leg.delivered < |sent| then sent[..leg.delivered] else sent
  }

  // An attempt: both ends resume from the same partial file, frames arrive in
  // order until the cut, and the partial file keeps what was written.
  function RunLeg(l: Link, source: Bytes, part: Option<Bytes>, leg: Leg): Progress
    requires |source| < TWO_TO_63
  {
    var resume := PrepareRuntimeResume(part, l.transferID, |source|, l.chunkSize, l.digest);
    if resume.Err? then Progress(part, 0, None)
    else
      var rx := ReceiverAt(l.Rx(), part, resume.value);
      if rx.Err? then Progress(part, 0, None)
      else
        var p := Play(l.Rx(), rx.value, InOrder(LegFrames(l, source, resume.value, leg)));
        Progress(Some(Held(part) + p.state.written), |p.state.written|,
                 if p.results != [] && p.results[|p.results| - 1].Ok? then p.results[|p.results| - 1].value else None)
  }

  // Attempts follow one another until one finishes.
  function Chain(l: Link, source: Bytes, part: Option<Bytes>, legs: seq<Leg>): Progress
    requires |source| < TWO_TO_63
  {
    if legs == [] then Progress(part, 0, None)
    else
      var before := Chain(l, source, part, legs[..|legs| - 1]);
      if before.done.Some? then before
      else
        var after := RunLeg(l, source, before.part, legs[|legs| - 1]);
        after.(accepted := before.accepted + after.accepted)
  }

  // The reader of each attempt hands out what the partial file still lacks.
  ghost predicate FaithfulLeg(source: Bytes, part: Option<Bytes>, leg: Leg) {
    |Held(part)| <= |source| ==> Delivers(source[|Held(part)|..], leg.script.turns)
  }

  ghost predicate FaithfulChain(l: Link, source: Bytes, part: Option<Bytes>, legs: seq<Leg>)
    requires |source| < TWO_TO_63
  {
    legs != [] ==>
      && FaithfulChain(l, source, part, legs[..|legs| - 1])
      && FaithfulLeg(source, Chain(l, source, part, legs[..|legs| - 1]).part, legs[|legs| - 1])
  }

  lemma {:induction false} HashedGrows(c: RxConfig, s: RxState, ms: seq<Delivery>, k: nat)
    requires k <= |ms|
    ensures Play(c, s, ms[..k]).state.hashed <= Play(c, s, ms).state.hashed
    decreases |ms|
  {
    hide AcceptStep;
    if k == |ms| {
      assert ms[..k] == ms;
    } else {
      var ms' := ms[..|ms| - 1];
      HashedGrows(c, s, ms', k);
      assert ms'[..k] == ms[..k];
      AcceptEffect(c, Play(c, s, ms').state, ms[|ms| - 1].message, ms[|ms| - 1].io);
    }
  }

  lemma {:induction false} AcceptedMeansNotFailed(c: RxConfig, s: RxState, ms: seq<Delivery>)
    requires !s.failed && forall k :: 0 <= k < |ms| ==> Play(c, s, ms).results[k].Ok?
    ensures !Play(c, s, ms).state.failed
  {
    hide AcceptStep;
    if ms != [] {
      var p := Play(c, s, ms[..|ms| - 1]);
      assert Play(c, s, ms).results[|ms| - 1].Ok?;
      AcceptEffect(c, p.state, ms[|ms| - 1].message, ms[|ms| - 1].io);
    }
  }

  // The frames of one stream, cut anywhere: what has arrived extends the
  // prefix toward the source, and a manifest among it completes the source.
  lemma CutStreamIsAPrefix(c: TxConfig, r: RxConfig, source: Bytes, script: Script, rx0: RxState, k: nat)
    requires Paired(c, r) && Meets(c, source, rx0) && |source| < TWO_TO_63
    requires Delivers(source[StartOffset(c)..], script.turns)
    requires c.transferID != "" && (c.encryption.Some? || c.allowPlaintext)
    requires rx0.hashed <= source
    requires k <= |Stream(c, source, script).state.sent|
    ensures var p := Play(r, rx0, InOrder(Stream(c, source, script).state.sent[..k]));
      && rx0.hashed + p.state.written <= source
      && (k > 0 && p.results[k - 1].Ok? && p.results[k - 1].value.Some? ==>
            && rx0.hashed + p.state.written == source
            && p.results[k - 1].value.value.totalBytes == |source|
            && p.results[k - 1].value.value.sha256Hex == c.digest(source)
            && Stream(c, source, script).result == Finished(p.results[k - 1].value.value))
      && !p.state.failed
  {
    hide Stream, AcceptStep, Play, Meets;
    var o := Stream(c, source, script);
    var ms := InOrder(o.state.sent);
    var q := Play(r, rx0, ms);
    var cut := InOrder(o.state.sent[..k]);
    assert ms[..k] == cut && ms == cut + ms[k..];
    var p := Play(r, rx0, cut);
    assert q.results[..k] == p.results by { PlayConcat(r, rx0, cut, ms[k..]); }
    SentIsAtSource(c, r, source, script, rx0);
    assert forall i :: 0 <= i < k ==> p.results[i] == q.results[i];
    MeetsStarts(c, source, rx0);
    AcceptedMeansNotFailed(r, rx0, cut);
    LatchInvariant(r, rx0, cut);
    HashedGrows(r, rx0, ms, k);
    if k > 0 && p.results[k - 1].value.Some? {
      assert k == |o.state.sent| && cut == ms;
    }
  }

  lemma MeetsStarts(c: TxConfig, source: Bytes, rx0: RxState)
    requires Meets(c, source, rx0)
    ensures Starting(rx0) && !rx0.failed
  {
  }

  // Over the whole stream: every frame is taken, chunks before a manifest,
  // and what is hashed never leaves the source.
  lemma SentIsAtSource(c: TxConfig, r: RxConfig, source: Bytes, script: Script, rx0: RxState)
    requires Paired(c, r) && Meets(c, source, rx0) && |source| < TWO_TO_63
    requires Delivers(source[StartOffset(c)..], script.turns)
    requires rx0.hashed <= source
    ensures var o := Stream(c, source, script);
      var n := |o.state.sent|;
      var q := Play(r, rx0, InOrder(o.state.sent));
      && (forall i :: 0 <= i < n ==> q.results[i].Ok?)
      && (forall i :: 0 <= i < n - 1 ==> q.results[i] == Ok(None))
      && q.state.hashed <= source
      && (n > 0 && q.results[n - 1].value.Some? ==>
            && q.state.hashed == source
            && q.results[n - 1].value.value.totalBytes == |source|
            && q.results[n - 1].value.value.sha256Hex == c.digest(source)
            && o.result == Finished(q.results[n - 1].value.value))
  {
    hide Stream, AcceptStep;
    var o := Stream(c, source, script);
    var n := |o.state.sent|;
    var ms := InOrder(o.state.sent);
    var q := Play(r, rx0, ms);
    if o.result.Finished? {
      FinishedStreamIsReceived(c, r, source, script, rx0);
    } else {
      StreamSyncs(c, r, source, script, rx0);
      StreamSealsHonestly(c, source, script);
      if n == 0 { assert q.state == rx0; }
    }
    AcceptedMeansNotFailed(r, rx0, ms);
    LatchInvariant(r, rx0, ms);
  }

  // Both ends of an attempt over a prefix start from it, and match.
  lemma LegStarts(l: Link, source: Bytes, part: Option<Bytes>) returns (resume: Option<ResumeManifest>)
    requires l.Sound() && |source| < TWO_TO_63 && Held(part) <= source
    ensures PrepareRuntimeResume(part, l.transferID, |source|, l.chunkSize, l.digest) == Ok(resume)
    ensures StartOffset(l.Tx(resume)) == |Held(part)|
    ensures ReceiverAt(l.Rx(), part, resume).Ok?
    ensures ReceiverAt(l.Rx(), part, resume).value.hashed == Held(part)
    ensures Meets(l.Tx(resume), source, ReceiverAt(l.Rx(), part, resume).value)
  {
    hide SequenceForOffset;
    resume := PrepareRuntimeResume(part, l.transferID, |source|, l.chunkSize, l.digest).value;
    assert Held(part) == source[..|Held(part)|];
    assert Held(part)[..|Held(part)|] == Held(part);
  }

  // An attempt over a partial file that is a prefix of the source.
  lemma LegExtendsPrefix(l: Link, source: Bytes, part: Option<Bytes>, leg: Leg)
    requires l.Sound() && |source| < TWO_TO_63 && FaithfulLeg(source, part, leg) && Held(part) <= source
    ensures var a := RunLeg(l, source, part, leg);
      && Held(a.part) <= source && |Held(a.part)| == |Held(part)| + a.accepted
      && (a.done.Some? ==>
            && a.part == Some(source)
            && a.done.value.totalBytes == |source| && a.done.value.sha256Hex == l.digest(source))
  {
    hide Stream, Play, SequenceForOffset, Meets, ReceiverAt, Delivers;
    var resume := LegStarts(l, source, part);
    var rx := ReceiverAt(l.Rx(), part, resume);
    var sent := Stream(l.Tx(resume), source, leg.script).state.sent;
    var k := if leg.delivered < |sent| then leg.delivered else |sent|;
    assert LegFrames(l, source, resume, leg) == sent[..k];
    CutStreamIsAPrefix(l.Tx(resume), l.Rx(), source, leg.script, rx.value, k);
  }

  // An attempt that nothing cuts, of a stream that finishes, is the last: it
  // accepts all that was missing.
  lemma WholeLegFinishes(l: Link, source: Bytes, part: Option<Bytes>, leg: Leg, resume: Option<ResumeManifest>)
    requires l.Sound() && |source| < TWO_TO_63 && FaithfulLeg(source, part, leg) && Held(part) <= source
    requires PrepareRuntimeResume(part, l.transferID, |source|, l.chunkSize, l.digest) == Ok(resume)
    requires Stream(l.Tx(resume), source, leg.script).result.Finished?
    requires leg.delivered >= |Stream(l.Tx(resume), source, leg.script).state.sent|
    ensures var a := RunLeg(l, source, part, leg);
      && a.part == Some(source) && a.accepted == |source| - |Held(part)|
      && a.done == Some(Stream(l.Tx(resume), source, leg.script).result.manifest)
  {
    hide Stream, Play, SequenceForOffset, Meets, ReceiverAt, Delivers, PrepareRuntimeResume;
    var started := LegStarts(l, source, part);
    var rx := ReceiverAt(l.Rx(), part, resume);
    assert LegFrames(l, source, resume, leg) == Stream(l.Tx(resume), source, leg.script).state.sent;
    FinishedStreamIsReceived(l.Tx(resume), l.Rx(), source, leg.script, rx.value);
  }

  // An attempt over any other partial file gets nowhere: the sender's check
  // of the prefix digest stops it, unless it meets a digest collision.
  lemma StalePartialIsLeftAlone(l: Link, source: Bytes, part: Option<Bytes>, leg: Leg)
    requires l.Sound() && |source| < TWO_TO_63 && !(Held(part) <= source)
    ensures var a := RunLeg(l, source, part, leg);
      || (a.accepted == 0 && a.done.None? && Held(a.part) == Held(part))
      || (|Held(part)| <= |source| && Collision(l.digest, Held(part), source[..|Held(part)|]))
  {
    hide ReadLoop, Conclude, SequenceForOffset, AcceptStep;
    assert Held(part) != [];
    if |Held(part)| <= |source| {
      assert source[..|Held(part)|] <= source;
      var resume := PrepareRuntimeResume(part, l.transferID, |source|, l.chunkSize, l.digest);
      if resume.Ok? && l.digest(source[..|Held(part)|]) != l.digest(Held(part)) {
        assert LegFrames(l, source, resume.value, leg) == [];
        assert Held(part) + [] == Held(part);
      }
    }
  }

  // Whatever the partial file held at first, after any number of cut attempts
  // either it held a prefix of the source (in particular nothing at all): then
  // it still does, it has grown by exactly the accepted bytes, and when an
  // attempt finishes it is the source; or no attempt ever added to it, and
  // none finished, unless a digest collision is exhibited.
  lemma {:induction false} ChainDelivers(l: Link, source: Bytes, part: Option<Bytes>, legs: seq<Leg>)
    requires l.Sound() && |source| < TWO_TO_63 && FaithfulChain(l, source, part, legs)
    ensures var a := Chain(l, source, part, legs);
      if Held(part) <= source then
        && Held(a.part) <= source && |Held(a.part)| == |Held(part)| + a.accepted
        && (a.done.Some? ==>
              && a.part == Some(source) && a.accepted == |source| - |Held(part)|
              && a.done.value.totalBytes == |source| && a.done.value.sha256Hex == l.digest(source))
      else
        || (a.accepted == 0 && a.done.None? && Held(a.part) == Held(part))
        || (|Held(part)| <= |source| && Collision(l.digest, Held(part), source[..|Held(part)|]))
    decreases |legs|
  {
    hide RunLeg, FaithfulLeg;
    if legs != [] {
      var legs' := legs[..|legs| - 1];
      ChainDelivers(l, source, part, legs');
      var before := Chain(l, source, part, legs');
      if before.done.None? {
        if Held(part) <= source {
          LegExtendsPrefix(l, source, before.part, legs[|legs| - 1]);
        } else if before.accepted == 0 && Held(before.part) == Held(part) {
          StalePartialIsLeftAlone(l, source, before.part, legs[|legs| - 1]);
        }
      }
    }
  }

  // From nothing, a chain that finishes has accepted every byte of the source
  // exactly once, however it was cut.
  lemma ChainFromNothing(l: Link, source: Bytes, legs: seq<Leg>)
    requires l.Sound() && |source| < TWO_TO_63 && FaithfulChain(l, source, None, legs)
    requires Chain(l, source, None, legs).done.Some?
    ensures var a := Chain(l, source, None, legs);
      a.part == Some(source) && a.accepted == |source| && a.done.value.totalBytes == |source|
      && a.done.value.sha256Hex == l.digest(source)
  {
    hide Chain, FaithfulChain;
    ChainDelivers(l, source, None, legs);
  }
}
