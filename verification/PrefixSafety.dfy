// Safety of the received file against an arbitrary network: messages may be
// dropped, repeated, reordered, replayed from earlier attempts or made up, but
// nobody without the key can seal a chunk.
module PrefixSafety {
  import opened Wrappers
  import opened GoIntegers
  import opened ChunkCrypto
  import opened Frames
  import opened ReceiverProtocol
  import opened ReceiverLatch

  ghost predicate SliceAt(source: Bytes, offset: int, p: Bytes) {
    0 <= offset && offset + |p| <= |source| && source[offset..offset + |p|] == p
  }

  // Every chunk sealed under the key, for whichever transfer and by whichever
  // attempt, is the slice of that transfer's source it claims to be.
  ghost predicate HonestLog(sources: map<string, Bytes>, log: set<SealedChunk>) {
    forall r :: r in log ==>
      r.transferID in sources && SliceAt(sources[r.transferID], r.offset, r.plaintext)
  }

  ghost predicate UnforgedDelivery(c: RxConfig, log: set<SealedChunk>, d: Delivery) {
    d.message.Json? && d.message.frame.encryption.Some? && c.options.encryption.Some? ==>
      var f := d.message.frame;
      Unforged(c.options.encryption.value, log, f.encryption.value.nonce, f.data,
               ChunkAAD(f.transferID, f.sequence, f.offset))
  }

  ghost predicate UnforgedRun(c: RxConfig, log: set<SealedChunk>, ms: seq<Delivery>) {
    forall k :: 0 <= k < |ms| ==> UnforgedDelivery(c, log, ms[k])
  }

  // What one call adds to the destination: nothing, or a leading part of the
  // chunk plaintext expected at the current offset.
  lemma WrittenEffect(c: RxConfig, s: RxState, w: Wire, io: WriteReply)
    ensures var t := AcceptStep(c, s, w, io).0;
      || t.written == s.written
      || (&& w.Json? && !s.failed && !s.complete
          && w.frame.transferID == c.transferID && w.frame.offset == s.offset
          && ChunkPlaintext(c, w.frame).Ok?
          && var p := ChunkPlaintext(c, w.frame).value;
          t.written == s.written + p[..Taken(io, p)])
  {
    hide ValidateFrame;
    hide ChunkAAD;
  }

  // A plaintext an encryption-demanding receiver opens at an offset is the
  // source's own slice there. This is where the additional data must name
  // transfer, sequence and offset without ambiguity.
  lemma OpenedChunkIsSlice(c: RxConfig, sources: map<string, Bytes>, log: set<SealedChunk>, d: Delivery)
    requires c.DemandsEncryption() && HonestLog(sources, log) && UnforgedDelivery(c, log, d)
    requires d.message.Json? && d.message.frame.transferID == c.transferID
    requires ChunkPlaintext(c, d.message.frame).Ok?
    ensures c.transferID in sources
    ensures SliceAt(sources[c.transferID], d.message.frame.offset, ChunkPlaintext(c, d.message.frame).value)
  {
    hide ChunkAAD;
    var f := d.message.frame;
    var p := ChunkPlaintext(c, f).value;
    var r :| r in log && ChunkAAD(r.transferID, r.sequence, r.offset) == ChunkAAD(f.transferID, f.sequence, f.offset)
             && r.plaintext == p;
    ChunkAADInjective(r.transferID, r.sequence, r.offset, f.transferID, f.sequence, f.offset);
  }

  lemma ExtendPrefix(source: Bytes, have: Bytes, p: Bytes, n: nat)
    requires have <= source && SliceAt(source, |have|, p) && n <= |p|
    ensures have + p[..n] <= source
  {
    assert source == source[..|have| + n] + source[|have| + n..];
    assert have + p[..n] == source[..|have| + n];
  }

  // One attempt: prefix plus written bytes stays a prefix of the source.
  lemma {:induction false} AttemptKeepsPrefix(c: RxConfig, sources: map<string, Bytes>, log: set<SealedChunk>,
                                              s0: RxState, ms: seq<Delivery>)
    requires c.DemandsEncryption() && HonestLog(sources, log) && UnforgedRun(c, log, ms)
    requires c.transferID in sources && |sources[c.transferID]| < TWO_TO_63
    requires Starting(s0) && s0.hashed <= sources[c.transferID]
    ensures s0.hashed + Play(c, s0, ms).state.written <= sources[c.transferID]
    decreases |ms|
  {
    hide AcceptStep;
    hide UnforgedDelivery;
    var source := sources[c.transferID];
    if ms == [] {
      assert s0.hashed + [] == s0.hashed;
    } else {
      var ms' := ms[..|ms| - 1];
      var d := ms[|ms| - 1];
      var s := Play(c, s0, ms').state;
      AttemptKeepsPrefix(c, sources, log, s0, ms');
      LatchInvariant(c, s0, ms');
      assert UnforgedDelivery(c, log, d);
      WrittenEffect(c, s, d.message, d.io);
      var t := AcceptStep(c, s, d.message, d.io).0;
      if t.written != s.written {
        OpenedChunkIsSlice(c, sources, log, d);
        var p := ChunkPlaintext(c, d.message.frame).value;
        ExtendPrefix(source, s0.hashed + s.written, p, Taken(d.io, p));
        assert s0.hashed + t.written == (s0.hashed + s.written) + p[..Taken(d.io, p)];
      }
    }
  }

  // An attempt keeps some leading part of the file it finds, takes up any
  // sequence number, and is then handed anything at all.
  datatype Attempt = Attempt(keep: nat, nextSeq: uint64, deliveries: seq<Delivery>)

  function Kept(file: Bytes, a: Attempt): Bytes {
    if a.keep < |file| then file[..a.keep] else file
  }

  function AttemptStart(file: Bytes, a: Attempt): (s: RxState)
    ensures Starting(s) && s.hashed == Kept(file, a)
  {
    RxState([], Kept(file, a), a.nextSeq, WrapInt64(|Kept(file, a)|), false, false)
  }

  // Those are the states the two receiver constructors make.
  lemma AttemptStartIsAReceiver(c: RxConfig, file: Bytes, a: Attempt, resume: ResumeManifest)
    requires |file| < TWO_TO_63
    ensures AttemptStart(file, a.(keep := 0, nextSeq := 0)) == Fresh()
    ensures resume.nextOffset == |Kept(file, a)| && ResumeReceiver(c, Kept(file, a), false, resume).Ok? ==>
              ResumeReceiver(c, Kept(file, a), false, resume).value
              == AttemptStart(file, a.(nextSeq := resume.nextSequence))
  {
  }

  function PlayAttempt(c: RxConfig, file: Bytes, a: Attempt): Played {
    Play(c, AttemptStart(file, a), a.deliveries)
  }

  function FileAfter(c: RxConfig, attempts: seq<Attempt>): Bytes {
    if attempts == [] then []
    else
      var file := FileAfter(c, attempts[..|attempts| - 1]);
      var a := attempts[|attempts| - 1];
      Kept(file, a) + PlayAttempt(c, file, a).state.written
  }

  // Prefix safety over any chain of attempts and any network.
  lemma {:induction false} FileIsAlwaysAPrefix(c: RxConfig, sources: map<string, Bytes>, log: set<SealedChunk>,
                                               attempts: seq<Attempt>)
    requires c.DemandsEncryption() && HonestLog(sources, log)
    requires c.transferID in sources && |sources[c.transferID]| < TWO_TO_63
    requires forall a :: a in attempts ==> UnforgedRun(c, log, a.deliveries)
    ensures FileAfter(c, attempts) <= sources[c.transferID]
    decreases |attempts|
  {
    hide Play;
    hide UnforgedRun;
    if attempts != [] {
      var file := FileAfter(c, attempts[..|attempts| - 1]);
      var a := attempts[|attempts| - 1];
      assert a in attempts;
      FileIsAlwaysAPrefix(c, sources, log, attempts[..|attempts| - 1]);
      AttemptKeepsPrefix(c, sources, log, AttemptStart(file, a), a.deliveries);
    }
  }

  // And once any call of the last attempt returned a manifest of the full
  // size, whoever sent that manifest, the file is the source.
  lemma FullManifestMeansWholeSource(c: RxConfig, sources: map<string, Bytes>, log: set<SealedChunk>,
                                     attempts: seq<Attempt>, k: nat, m: Manifest)
    requires c.DemandsEncryption() && HonestLog(sources, log)
    requires c.transferID in sources && |sources[c.transferID]| < TWO_TO_63
    requires forall a :: a in attempts ==> UnforgedRun(c, log, a.deliveries)
    requires attempts != []
    requires var last := attempts[|attempts| - 1];
             var p := PlayAttempt(c, FileAfter(c, attempts[..|attempts| - 1]), last);
             k < |last.deliveries| && p.results[k] == Ok(Some(m))
    requires m.totalBytes == |sources[c.transferID]|
    ensures FileAfter(c, attempts) == sources[c.transferID]
    ensures m.sha256Hex == c.digest(sources[c.transferID])
  {
    hide Play;
    hide UnforgedRun;
    FileIsAlwaysAPrefix(c, sources, log, attempts);
    var last := attempts[|attempts| - 1];
    var file := FileAfter(c, attempts[..|attempts| - 1]);
    ManifestDescribesHashedBytes(c, AttemptStart(file, last), last.deliveries, k, m);
    var got := FileAfter(c, attempts);
    assert got == PlayAttempt(c, file, last).state.hashed;
    assert WrapInt64(|got|) == |got|;
  }
}
