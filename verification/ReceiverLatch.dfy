// What holds of a receiver after any sequence of messages.
module ReceiverLatch {
  import opened Wrappers
  import opened GoIntegers
  import opened ChunkCrypto
  import opened Frames
  import opened ReceiverProtocol

  datatype Delivery = Delivery(message: Wire, io: WriteReply)

  // A receiver after a run of deliveries, and what each call returned.
  datatype Played = Played(state: RxState, results: seq<AcceptResult>)

  function Play(c: RxConfig, s: RxState, ms: seq<Delivery>): (p: Played)
    ensures |p.results| == |ms|
  {
    if ms == [] then Played(s, [])
    else
      var before := Play(c, s, ms[..|ms| - 1]);
      var last := ms[|ms| - 1];
      var (t, r) := AcceptStep(c, before.state, last.message, last.io);
      Played(t, before.results + [r])
  }

  function AcceptedChunks(results: seq<AcceptResult>): nat {
    if results == [] then 0
    else AcceptedChunks(results[..|results| - 1]) + (if results[|results| - 1] == Ok(None) then 1 else 0)
  }

  // A receiver that has not yet been handed a message.
  predicate Starting(s: RxState) {
    s.written == [] && s.offset == WrapInt64(|s.hashed|) && !s.complete && !s.failed
  }

  // One call either takes one chunk whole, or leaves position and hash alone.
  lemma AcceptEffect(c: RxConfig, s: RxState, w: Wire, io: WriteReply)
    ensures var (t, r) := AcceptStep(c, s, w, io);
      if r == Ok(None) then
        && w.Json? && ChunkPlaintext(c, w.frame).Ok?
        && !s.failed && !s.complete
        && var p := ChunkPlaintext(c, w.frame).value;
        t == s.(written := s.written + p, hashed := s.hashed + p,
                offset := WrapInt64(s.offset + |p|), nextSeq := WrapUint64(s.nextSeq + 1))
      else
        && t.hashed == s.hashed && t.offset == s.offset && t.nextSeq == s.nextSeq && s.written <= t.written
        && (!t.failed ==> t.written == s.written)
        && (r.Ok? ==> t == s.(complete := true) && !s.failed && !s.complete)
        && (r.Err? ==> t.complete == s.complete && (t.failed || t == s))
        && (s.complete || s.failed ==> t == s && r.Err?)
  {
    var (t, r) := AcceptStep(c, s, w, io);
    if r == Ok(None) {
      var p := ChunkPlaintext(c, w.frame).value;
      assert p[..|p|] == p;
    }
  }

  // Exactly which chunk is taken: the next one, at the current offset, of this
  // transfer, well formed, in the clear only if that is allowed, opened under
  // its own place otherwise, and written whole.
  lemma ChunkTakenExactly(c: RxConfig, s: RxState, w: Wire, io: WriteReply)
    ensures AcceptStep(c, s, w, io).1 == Ok(None) <==>
      && c.transferID != "" && !s.complete && !s.failed
      && w.Json? && ValidateFrame(w.frame).None? && w.frame.frameType.Chunk? && w.frame.transferID == c.transferID
      && w.frame.sequence == s.nextSeq && w.frame.offset == s.offset
      && ChunkPlaintext(c, w.frame).Ok? && Taken(io, ChunkPlaintext(c, w.frame).value) == |ChunkPlaintext(c, w.frame).value|
      && !WriteFails(io)
  {
    hide ChunkPlaintext;
  }

  // Exactly which manifest is taken: the one that describes what was hashed,
  // after at least one chunk unless plaintext is allowed.
  lemma ManifestTakenExactly(c: RxConfig, s: RxState, w: Wire, io: WriteReply)
    ensures var r := AcceptStep(c, s, w, io).1;
      r.Ok? && r.value.Some? <==>
        && c.transferID != "" && !s.complete && !s.failed
        && w.Json? && ValidateFrame(w.frame).None? && w.frame.frameType.ManifestEnd? && w.frame.transferID == c.transferID
        && w.frame.totalBytes == s.offset && w.frame.chunkCount == s.nextSeq && w.frame.sha256Hex == c.digest(s.hashed)
        && (c.options.allowPlaintext || s.nextSeq != 0)
  {
    hide ChunkPlaintext;
  }

  ghost predicate Latched(s0: RxState, s: RxState, accepted: nat) {
    && s.offset == WrapInt64(|s.hashed|)
    && s.nextSeq == WrapUint64(s0.nextSeq + accepted)
    && !(s.complete && s.failed)
    && s0.hashed <= s.hashed
    && s.hashed[|s0.hashed|..] <= s.written
    && (!s.failed ==> s.hashed == s0.hashed + s.written)
  }

  lemma ChunkPosition(hashed: nat, n: nat, start: uint64, accepted: nat)
    ensures WrapInt64(WrapInt64(hashed) + n) == WrapInt64(hashed + n)
    ensures WrapUint64(WrapUint64(start + accepted) + 1) == WrapUint64(start + (accepted + 1))
  {
    hide WrapInt64, WrapUint64;
    WrapUint64Adds(start + accepted, 1);
    WrapInt64Adds(hashed, n);
  }

  lemma ChunkBytes(a: Bytes, b: Bytes)
    ensures a <= a + b && (a + b)[|a|..] == b
  {
  }

  // A receiver that has not failed is latched when its hash is what it started
  // from and what it has written.
  lemma AllWritten(s0: RxState, s: RxState, accepted: nat)
    requires s.hashed == s0.hashed + s.written && !s.failed
    requires s.offset == WrapInt64(|s.hashed|) && s.nextSeq == WrapUint64(s0.nextSeq + accepted)
    ensures Latched(s0, s, accepted)
  {
    hide WrapInt64, WrapUint64;
    ChunkBytes(s0.hashed, s.written);
  }

  lemma LatchedMeans(s0: RxState, s: RxState, accepted: nat)
    requires Latched(s0, s, accepted) && !s.failed
    ensures s.hashed == s0.hashed + s.written
    ensures s.offset == WrapInt64(|s.hashed|) && s.nextSeq == WrapUint64(s0.nextSeq + accepted)
  {
    hide WrapInt64, WrapUint64;
  }

  lemma Regroup(a: Bytes, b: Bytes, p: Bytes)
    ensures a + b + p == a + (b + p) && |a + b + p| == |a + b| + |p|
  {
  }

  lemma ChunkKeepsLatched(s0: RxState, s: RxState, accepted: nat, p: Bytes)
    requires Latched(s0, s, accepted) && !s.failed && !s.complete
    ensures Latched(s0, s.(written := s.written + p, hashed := s.hashed + p, offset := WrapInt64(s.offset + |p|),
                           nextSeq := WrapUint64(s.nextSeq + 1)), accepted + 1)
  {
    hide WrapInt64, WrapUint64, Latched;
    LatchedMeans(s0, s, accepted);
    ChunkPosition(|s.hashed|, |p|, s0.nextSeq, accepted);
    Regroup(s0.hashed, s.written, p);
    AllWritten(s0, s.(written := s.written + p, hashed := s.hashed + p, offset := WrapInt64(s.offset + |p|),
                      nextSeq := WrapUint64(s.nextSeq + 1)), accepted + 1);
  }

  lemma RestKeepsLatched(s0: RxState, s: RxState, t: RxState, accepted: nat)
    requires Latched(s0, s, accepted)
    requires t.hashed == s.hashed && t.offset == s.offset && t.nextSeq == s.nextSeq && s.written <= t.written
    requires !t.failed ==> t.written == s.written && !s.failed
    requires t.complete ==> !t.failed
    ensures Latched(s0, t, accepted)
  {
    hide WrapInt64, WrapUint64;
  }

  lemma LatchStep(c: RxConfig, s0: RxState, s: RxState, accepted: nat, d: Delivery)
    requires Latched(s0, s, accepted)
    ensures var (t, r) := AcceptStep(c, s, d.message, d.io);
            Latched(s0, t, accepted + (if r == Ok(None) then 1 else 0))
  {
    hide AcceptStep, WrapInt64, WrapUint64, ChunkPlaintext, Latched;
    AcceptEffect(c, s, d.message, d.io);
    var (t, r) := AcceptStep(c, s, d.message, d.io);
    if r == Ok(None) {
      ChunkKeepsLatched(s0, s, accepted, ChunkPlaintext(c, d.message.frame).value);
    } else {
      NotBoth(s0, s, accepted);
      RestKeepsLatched(s0, s, t, accepted);
    }
  }

  lemma NotBoth(s0: RxState, s: RxState, accepted: nat)
    requires Latched(s0, s, accepted)
    ensures !(s.complete && s.failed)
  {
  }

  lemma StartIsLatched(s0: RxState)
    requires Starting(s0)
    ensures Latched(s0, s0, 0)
  {
  }

  // The invariant of every run: position, chunk count and hash move together;
  // a finished receiver has not failed; and what was written past the start
  // is exactly what was hashed, but for the torn write that made it fail.
  lemma {:induction false} LatchInvariant(c: RxConfig, s0: RxState, ms: seq<Delivery>)
    requires Starting(s0)
    ensures var p := Play(c, s0, ms); Latched(s0, p.state, AcceptedChunks(p.results))
    decreases |ms|
  {
    hide AcceptStep, Latched;
    if ms == [] {
      StartIsLatched(s0);
    } else {
      var ms' := ms[..|ms| - 1];
      var p := Play(c, s0, ms');
      LatchInvariant(c, s0, ms');
      LatchStep(c, s0, p.state, AcceptedChunks(p.results), ms[|ms| - 1]);
      assert Play(c, s0, ms).results[..|ms| - 1] == p.results;
    }
  }

  lemma {:induction false} PlayConcat(c: RxConfig, s: RxState, a: seq<Delivery>, b: seq<Delivery>)
    ensures var p := Play(c, s, a);
            var q := Play(c, p.state, b);
            Play(c, s, a + b) == Played(q.state, p.results + q.results)
    decreases |b|
  {
    if b == [] {
      assert a + b == a;
    } else {
      PlayConcat(c, s, a, b[..|b| - 1]);
      assert (a + b)[..|a + b| - 1] == a + b[..|b| - 1];
    }
  }

  // A receiver that is complete or failed never changes again and refuses
  // every later message.
  lemma {:induction false} LatchHolds(c: RxConfig, s: RxState, after: seq<Delivery>)
    requires s.complete || s.failed
    ensures var p := Play(c, s, after);
            p.state == s && forall k :: 0 <= k < |after| ==> p.results[k].Err?
    decreases |after|
  {
    if after != [] {
      LatchHolds(c, s, after[..|after| - 1]);
      AcceptEffect(c, s, after[|after| - 1].message, after[|after| - 1].io);
    }
  }

  lemma ManifestEffect(c: RxConfig, s: RxState, w: Wire, io: WriteReply)
    ensures var (t, r) := AcceptStep(c, s, w, io);
      r.Ok? && r.value.Some? ==>
        && t == s.(complete := true) && !s.failed
        && r.value.value == Manifest(c.transferID, s.offset, s.nextSeq, c.digest(s.hashed))
  {
  }

  // A run seen from its k-th call.
  lemma PlayAt(c: RxConfig, s: RxState, ms: seq<Delivery>, k: nat)
    requires k < |ms|
    ensures var h := Play(c, s, ms[..k]);
            var (t, r) := AcceptStep(c, h.state, ms[k].message, ms[k].io);
            var q := Play(c, t, ms[k + 1..]);
            var p := Play(c, s, ms);
            p.state == q.state && p.results[..k] == h.results && p.results[k] == r && p.results[k + 1..] == q.results
  {
    assert ms == ms[..k + 1] + ms[k + 1..];
    PlayConcat(c, s, ms[..k + 1], ms[k + 1..]);
    assert ms[..k + 1][..k] == ms[..k];
  }

  lemma AllLaterRefused(p: Played, q: Played, k: nat)
    requires k < |p.results| && p.results[k + 1..] == q.results
    requires forall j :: 0 <= j < |q.results| ==> q.results[j].Err?
    ensures forall j :: k < j < |p.results| ==> p.results[j].Err?
  {
    forall j | k < j < |p.results| ensures p.results[j].Err? {
      assert p.results[j] == q.results[j - k - 1];
    }
  }

  // A manifest is returned only for exactly what was hashed, and it ends the
  // run: everything accepted is on disk and nothing after it is taken.
  lemma ManifestDescribesHashedBytes(c: RxConfig, s0: RxState, ms: seq<Delivery>, k: nat, m: Manifest)
    requires Starting(s0) && k < |ms|
    requires Play(c, s0, ms).results[k] == Ok(Some(m))
    ensures var p := Play(c, s0, ms);
      && p.state.complete && !p.state.failed
      && m == Manifest(c.transferID, WrapInt64(|p.state.hashed|),
                       WrapUint64(s0.nextSeq + AcceptedChunks(p.results[..k])), c.digest(p.state.hashed))
      && p.state.hashed == s0.hashed + p.state.written
      && forall j :: k < j < |ms| ==> p.results[j].Err?
  {
    hide AcceptStep, Play, Latched, Starting;
    var h := Play(c, s0, ms[..k]);
    var t := AcceptStep(c, h.state, ms[k].message, ms[k].io).0;
    var q := Play(c, t, ms[k + 1..]);
    PlayAt(c, s0, ms, k);
    LatchInvariant(c, s0, ms[..k]);
    ManifestEnds(c, s0, h.state, AcceptedChunks(h.results), ms[k], m);
    LatchHolds(c, t, ms[k + 1..]);
    AllLaterRefused(Play(c, s0, ms), q, k);
  }

  lemma ManifestEnds(c: RxConfig, s0: RxState, s: RxState, accepted: nat, d: Delivery, m: Manifest)
    requires Latched(s0, s, accepted)
    requires AcceptStep(c, s, d.message, d.io).1 == Ok(Some(m))
    ensures var t := AcceptStep(c, s, d.message, d.io).0;
      && t.complete && !t.failed
      && m == Manifest(c.transferID, WrapInt64(|t.hashed|), WrapUint64(s0.nextSeq + accepted), c.digest(t.hashed))
      && t.hashed == s0.hashed + t.written
  {
    ManifestEffect(c, s, d.message, d.io);
  }

  // Reporting and resuming undo each other: a receiver made from the point an
  // interrupted one reported, over what that one held, stands where it stood.
  lemma InterruptedReceiverResumes(c: RxConfig, s0: RxState, ms: seq<Delivery>, totalBytes: int64)
    requires c.transferID != "" && Starting(s0)
    requires |Play(c, s0, ms).state.hashed| <= totalBytes
    ensures var s := Play(c, s0, ms).state;
      ResumeReceiver(c, s.hashed, false, ResumeAt(c, s, totalBytes))
      == Ok(s.(written := [], complete := false, failed := false))
  {
    hide Play;
    LatchInvariant(c, s0, ms);
    var s := Play(c, s0, ms).state;
    assert s.hashed[..|s.hashed|] == s.hashed;
  }
}
