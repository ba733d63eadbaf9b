// Sequence numbers after resuming: they are re-derived from the offset, so
// they never drift.
module ChunkCounts {
  import opened Wrappers
  import opened GoIntegers
  import opened Division
  import opened ChunkCrypto
  import opened Frames
  import opened ReceiverProtocol
  import opened ReceiverLatch
  import opened SenderProtocol
  import opened StreamSimulation
  import opened Resume
  import opened ResumeChain
  import opened PrefixSafety

  // A reader that fills the buffer while it can, as a file does.
  ghost predicate FullReads(c: ChunkSize, rest: Bytes, turns: seq<Turn>)
    decreases |turns|
  {
    turns != [] ==>
      && turns[0].data == (if |rest| < c then rest else rest[..c])
      && (turns[0].end.Eof? ==> turns[0].data == rest)
      && (turns[0].end.More? ==> FullReads(c, rest[|turns[0].data|..], turns[1..]))
  }

  lemma {:induction false} FullReadsDeliver(c: ChunkSize, rest: Bytes, turns: seq<Turn>)
    requires FullReads(c, rest, turns)
    ensures Delivers(rest, turns)
    decreases |turns|
  {
    if turns != [] && turns[0].end.More? { FullReadsDeliver(c, rest[|turns[0].data|..], turns[1..]); }
  }

  lemma ChunksAddFull(n: nat, c: ChunkSize)
    ensures Chunks(n + c, c) == Chunks(n, c) + 1
  {
  }

  lemma ChunksOfRest(n: nat, c: ChunkSize)
    ensures n > 0 ==> Chunks(n, c) == 1 + (if n <= c then 0 else Chunks(n - c, c))
    ensures Chunks(0, c) == 0
  {
  }

  // One full read, sent.
  lemma FullChunkSent(tx: TxConfig, c: ChunkSize, source: Bytes, s: TxState, data: Bytes, io: ChunkIO)
    requires tx.transferID != "" && |source| < TWO_TO_63 && AtSource(tx, source, s)
    requires |s.hashed| < |source| && s.sequence < TWO_TO_64 - 1
    requires var rest := source[|s.hashed|..]; data == (if |rest| < c then rest else rest[..c])
    requires SendStep(tx, s, data, io).1.None?
    ensures var t := SendStep(tx, s, data, io).0;
      && AtSource(tx, source, t) && t.hashed == s.hashed + data && t.sequence == s.sequence + 1
      && |t.hashed| <= |source| && source[|t.hashed|..] == source[|s.hashed|..][|data|..]
      && Chunks(|source| - |s.hashed|, c) == 1 + Chunks(|source| - |t.hashed|, c)
      && (|t.hashed| < |source| ==> Chunks(|t.hashed|, c) == Chunks(|s.hashed|, c) + 1)
  {
    hide SendStep, Chunks;
    SendStaysAtSource(tx, source, s, data, io);
    SendEffect(tx, s, data, io);
    ChunksOfRest(|source| - |s.hashed|, c);
    ChunksOfRest(0, c);
    ChunksAddFull(|s.hashed|, c);
  }

  // At every chunk boundary the loop reaches, the sequence has advanced by one
  // per chunk: from any start that counted its chunks right, it equals the
  // number re-derived from the offset, until the last, short chunk.
  lemma {:induction false} LoopCountsChunks(tx: TxConfig, c: ChunkSize, source: Bytes, s: TxState, turns: seq<Turn>)
    requires tx.transferID != "" && |source| < TWO_TO_63
    requires AtSource(tx, source, s)
    requires FullReads(c, source[|s.hashed|..], turns)
    requires s.sequence + |source| - |s.hashed| < TWO_TO_64
    ensures var l := ReadLoop(tx, s, turns);
      && |s.hashed| <= |l.state.hashed|
      && (l.error.None? ==> l.state.sequence == s.sequence + Chunks(|source| - |s.hashed|, c))
      && (|l.state.hashed| < |source| && s.sequence == Chunks(|s.hashed|, c) ==>
            l.state.sequence == Chunks(|l.state.hashed|, c))
    decreases |turns|
  {
    hide SendStep, Chunks, AtSource;
    if turns != [] && !turns[0].cancelled {
      var turn := turns[0];
      AtSourceLength(tx, source, s);
      var rest := source[|s.hashed|..];
      ChunksOfRest(0, c);
      if turn.data == [] {
        assert rest == [];
        if turn.end.More? {
          assert rest[0..] == rest;
          LoopCountsChunks(tx, c, source, s, turns[1..]);
        }
      } else {
        var (t, e) := SendStep(tx, s, turn.data, turn.io);
        if e.Some? {
          FailedSendEffect(tx, s, turn.data, turn.io);
        } else {
          FullChunkSent(tx, c, source, s, turn.data, turn.io);
          if turn.end.More? { LoopCountsChunks(tx, c, source, t, turns[1..]); }
        }
      }
    }
  }

  lemma AtSourceLength(tx: TxConfig, source: Bytes, s: TxState)
    requires AtSource(tx, source, s)
    ensures |s.hashed| <= |source| && s.total == |s.hashed|
  {
  }

  lemma PrefixIsAtSource(tx: TxConfig, source: Bytes, s: TxState)
    requires s.hashed <= source && s.total == |s.hashed| && s.sealed == []
    ensures AtSource(tx, source, s)
  {
  }

  function Max(a: nat, b: nat): nat { if a < b then b else a }

  // The chunk count of a finished encrypted stream, fresh or resumed at offset
  // o with the re-derived sequence.
  lemma FinishedCount(tx: TxConfig, c: ChunkSize, source: Bytes, script: Script)
    requires tx.encryption.Some? && |source| + c < TWO_TO_63
    requires 0 <= StartOffset(tx) <= |source|
    requires tx.resume.Some? ==> tx.resume.value.nextSequence == SequenceForOffset(tx.resume.value.nextOffset, c)
    requires FullReads(c, source[StartOffset(tx)..], script.turns)
    requires Stream(tx, source, script).result.Finished?
    ensures Stream(tx, source, script).result.manifest.chunkCount
            == Max(1, Chunks(StartOffset(tx), c) + Chunks(|source| - StartOffset(tx), c))
  {
    hide SendStep, ReadLoop, SequenceForOffset, Chunks, FullReads, Delivers, Conclude, AtSource;
    FinishedHasID(tx, source, script);
    FullReadsDeliver(c, source[StartOffset(tx)..], script.turns);
    StreamSealsHonestly(tx, source, script);
    var s := StartSending(tx, source).value;
    assert s.hashed == source[..StartOffset(tx)];
    assert AtSource(tx, source, s) by { PrefixIsAtSource(tx, source, s); }
    SequenceForOffsetIsChunks(StartOffset(tx), c);
    LoopStaysAtSource(tx, source, s, script.turns);
    LoopCountsChunks(tx, c, source, s, script.turns);
    var l := ReadLoop(tx, s, script.turns).state;
    AtSourceLength(tx, source, l);
    ChunksOfRest(StartOffset(tx), c);
    ChunksOfRest(|source| - StartOffset(tx), c);
    ConcludedCount(tx, l, script);
  }

  lemma ConcludedCount(tx: TxConfig, l: TxState, script: Script)
    requires tx.transferID != "" && tx.encryption.Some? && Conclude(tx, l, script).result.Finished?
    ensures Conclude(tx, l, script).result.manifest.chunkCount
            == if l.total == 0 && l.sequence == 0 then 1 else l.sequence
  {
    hide SendStep, ValidateFrame;
    if NeedsSentinel(tx, l) {
      SendEffect(tx, l, [], script.sentinel);
    }
  }

  lemma {:induction false} ChunksOfWhole(q: nat, r: nat, c: ChunkSize)
    requires r < c
    ensures Chunks(q * c + r, c) == q + (if r > 0 then 1 else 0)
  {
    if q == 1 {
      assert q * c + r == c + r;
    } else if q > 1 {
      assert q * c + r == (q - 1) * c + r + c;
      MulAtLeast(q - 1, c);
      ChunksOfWhole(q - 1, r, c);
    }
  }

  lemma TwoPieces(q1: nat, r1: nat, q2: nat, r2: nat, c: ChunkSize)
    requires r1 < c && r2 < c
    ensures Chunks(q1 * c + r1, c) + Chunks(q2 * c + r2, c)
            == Chunks(q1 * c + r1 + (q2 * c + r2), c) + (if r1 > 0 && r2 > 0 && r1 + r2 <= c then 1 else 0)
  {
    hide Chunks;
    ChunksOfWhole(q1, r1, c);
    ChunksOfWhole(q2, r2, c);
    assert q1 * c + r1 + (q2 * c + r2) == (q1 + q2) * c + (r1 + r2);
    if r1 + r2 < c {
      ChunksOfWhole(q1 + q2, r1 + r2, c);
    } else {
      assert (q1 + q2 + 1) * c == (q1 + q2) * c + c;
      ChunksOfWhole(q1 + q2 + 1, r1 + r2 - c, c);
    }
  }

  // How far a resume at offset o moves the count of chunks of n bytes: never
  // by more than one, and by one exactly when both parts end in a short chunk
  // and the two would have fitted in one.
  lemma ResumeMovesCountByAtMostOne(o: nat, n: nat, c: ChunkSize)
    requires o <= n
    ensures Chunks(o, c) + Chunks(n - o, c)
            == Chunks(n, c) + (if o % c > 0 && (n - o) % c > 0 && o % c + (n - o) % c <= c then 1 else 0)
  {
    hide Chunks;
    var q1, r1 := Divided(o, c);
    var q2, r2 := Divided(n - o, c);
    TwoPieces(q1, r1, q2, r2, c);
  }

  // So whatever attempts went before, the manifest of the attempt that
  // finishes counts the chunks of the whole file, or one more: the last resume
  // alone decides, and at a chunk boundary the count is exact.
  lemma CountNeverDrifts(l: Link, source: Bytes, part: Option<Bytes>, legs: seq<Leg>)
    requires l.Sound() && |source| + RuntimeChunkSize(l.chunkSize) < TWO_TO_63
    requires FaithfulChain(l, source, part, legs) && Held(part) <= source && legs != []
    requires Chain(l, source, part, legs[..|legs| - 1]).done.None? && Chain(l, source, part, legs).done.Some?
    requires var o := |Held(Chain(l, source, part, legs[..|legs| - 1]).part)|;
      o <= |source| ==> FullReads(RuntimeChunkSize(l.chunkSize), source[o..], legs[|legs| - 1].script.turns)
    ensures var c := RuntimeChunkSize(l.chunkSize);
      var o := |Held(Chain(l, source, part, legs[..|legs| - 1]).part)|;
      var exact := Max(1, Chunks(|source|, c));
      var count := Chain(l, source, part, legs).done.value.chunkCount;
      && exact <= count <= exact + 1
      && (o % c == 0 ==> count == exact)
  {
    hide RunLeg, Chunks, Stream, FullReads, FaithfulLeg;
    var before := Chain(l, source, part, legs[..|legs| - 1]);
    ChainDelivers(l, source, part, legs[..|legs| - 1]);
    var o := |Held(before.part)|;
    LegCount(l, source, before.part, legs[|legs| - 1]);
    ResumeMovesCountByAtMostOne(o, |source|, RuntimeChunkSize(l.chunkSize));
  }

  lemma LegCount(l: Link, source: Bytes, part: Option<Bytes>, leg: Leg)
    requires l.Sound() && |source| + RuntimeChunkSize(l.chunkSize) < TWO_TO_63
    requires FaithfulLeg(source, part, leg) && Held(part) <= source
    requires FullReads(RuntimeChunkSize(l.chunkSize), source[|Held(part)|..], leg.script.turns)
    requires RunLeg(l, source, part, leg).done.Some?
    ensures var c := RuntimeChunkSize(l.chunkSize);
      RunLeg(l, source, part, leg).done.value.chunkCount
      == Max(1, Chunks(|Held(part)|, c) + Chunks(|source| - |Held(part)|, c))
  {
    hide Stream, Chunks, FullReads, SequenceForOffset, RuntimeChunkSize, RunLeg, FaithfulLeg;
    var tx := FinishingLeg(l, source, part, leg);
    FinishedCount(tx, RuntimeChunkSize(l.chunkSize), source, leg.script);
  }

  // An attempt that finishes returns the manifest of a finished stream.
  lemma FinishingLeg(l: Link, source: Bytes, part: Option<Bytes>, leg: Leg) returns (tx: TxConfig)
    requires l.Sound() && |source| < TWO_TO_63 && FaithfulLeg(source, part, leg) && Held(part) <= source
    requires RunLeg(l, source, part, leg).done.Some?
    ensures StartOffset(tx) == |Held(part)| && tx.encryption.Some?
    ensures tx.resume.Some? ==>
      tx.resume.value.nextSequence == SequenceForOffset(tx.resume.value.nextOffset, RuntimeChunkSize(l.chunkSize))
    ensures Stream(tx, source, leg.script).result == Finished(RunLeg(l, source, part, leg).done.value)
  {
    hide Stream, Play, SequenceForOffset;
    var resume := LegStarts(l, source, part);
    var rx := ReceiverAt(l.Rx(), part, resume);
    tx := l.Tx(resume);
    var sent := Stream(tx, source, leg.script).state.sent;
    var k := if leg.delivered < |sent| then leg.delivered else |sent|;
    assert LegFrames(l, source, resume, leg) == sent[..k];
    CutStreamIsAPrefix(tx, l.Rx(), source, leg.script, rx.value, k);
  }
}
