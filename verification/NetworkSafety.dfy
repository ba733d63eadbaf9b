// Prefix safety with the sealing log made by actual senders, and the promise
// that an undisturbed sender finishes.
module NetworkSafety {
  import opened Wrappers
  import opened GoIntegers
  import opened ChunkCrypto
  import opened Frames
  import opened ReceiverProtocol
  import opened SenderProtocol
  import opened StreamSimulation
  import opened PrefixSafety

  // One use of the key: a stream of some transfer, run to whatever end.
  datatype Streaming = Streaming(config: TxConfig, script: Script)

  // Everything ever sealed under the key.
  ghost function SealLog(sources: map<string, Bytes>, uses: seq<Streaming>): set<SealedChunk> {
    if uses == [] then {}
    else
      var u := uses[|uses| - 1];
      SealLog(sources, uses[..|uses| - 1])
      + (if u.config.transferID in sources then
           set k | k in Stream(u.config, sources[u.config.transferID], u.script).state.sealed
         else {})
  }

  // Each use streams an unchanged source from where its resume point says.
  ghost predicate FaithfulUse(sources: map<string, Bytes>, u: Streaming) {
    u.config.transferID in sources ==>
      var source := sources[u.config.transferID];
      && |source| < TWO_TO_63
      && (0 <= StartOffset(u.config) <= |source| ==> Delivers(source[StartOffset(u.config)..], u.script.turns))
  }

  lemma {:induction false} SendersKeepTheLogHonest(sources: map<string, Bytes>, uses: seq<Streaming>)
    requires forall u :: u in uses ==> FaithfulUse(sources, u)
    ensures HonestLog(sources, SealLog(sources, uses))
  {
    hide Stream, FaithfulUse, Delivers;
    if uses != [] {
      var u := uses[|uses| - 1];
      assert u in uses;
      SendersKeepTheLogHonest(sources, uses[..|uses| - 1]);
      if u.config.transferID in sources {
        var source := sources[u.config.transferID];
        UseIsHonest(sources, u);
        forall k | k in Stream(u.config, source, u.script).state.sealed
          ensures k.transferID in sources && SliceAt(sources[k.transferID], k.offset, k.plaintext)
        {
          var i :| 0 <= i < |Stream(u.config, source, u.script).state.sealed|
                   && Stream(u.config, source, u.script).state.sealed[i] == k;
        }
      }
    }
  }

  lemma UseIsHonest(sources: map<string, Bytes>, u: Streaming)
    requires FaithfulUse(sources, u) && u.config.transferID in sources
    ensures AtSource(u.config, sources[u.config.transferID],
                     Stream(u.config, sources[u.config.transferID], u.script).state)
  {
    hide Stream;
    StreamSealsHonestly(u.config, sources[u.config.transferID], u.script);
  }

  // Prefix safety, end to end: senders under one key stream any transfers any
  // number of times; an arbitrary network hands a receiver whatever it likes,
  // short of forging a seal; the receiver is cut and restarted at will. The
  // received file is always a prefix of the source of its own transfer.
  lemma NoNetworkSpoilsTheFile(c: RxConfig, sources: map<string, Bytes>, uses: seq<Streaming>, attempts: seq<Attempt>)
    requires c.DemandsEncryption() && c.transferID in sources && |sources[c.transferID]| < TWO_TO_63
    requires forall u :: u in uses ==> FaithfulUse(sources, u)
    requires forall a :: a in attempts ==> UnforgedRun(c, SealLog(sources, uses), a.deliveries)
    ensures FileAfter(c, attempts) <= sources[c.transferID]
  {
    hide FaithfulUse, UnforgedRun, FileAfter, SealLog, HonestLog;
    SendersKeepTheLogHonest(sources, uses);
    FileIsAlwaysAPrefix(c, sources, SealLog(sources, uses), attempts);
  }

  // ---- An undisturbed sender finishes ----

  predicate GoodIO(c: TxConfig, io: ChunkIO) {
    io.waited && io.sent && (c.encryption.Some? ==> io.nonce.Some?)
  }

  // The reader hands out rest in some split, with no failure, up to its end.
  ghost predicate Healthy(c: TxConfig, rest: Bytes, turns: seq<Turn>)
    decreases |turns|
  {
    && turns != [] && !turns[0].cancelled && GoodIO(c, turns[0].io)
    && turns[0].data <= rest
    && (|| (turns[0].end.Eof? && turns[0].data == rest)
        || (turns[0].end.More? && Healthy(c, rest[|turns[0].data|..], turns[1..])))
  }

  lemma {:induction false} HealthyDelivers(c: TxConfig, rest: Bytes, turns: seq<Turn>)
    requires Healthy(c, rest, turns)
    ensures Delivers(rest, turns)
    decreases |turns|
  {
    if turns[0].end.More? { HealthyDelivers(c, rest[|turns[0].data|..], turns[1..]); }
  }

  lemma GoodSendSucceeds(c: TxConfig, s: TxState, data: Bytes, io: ChunkIO)
    requires c.transferID != "" && GoodIO(c, io) && s.total >= 0
    requires if c.encryption.Some? then c.encryption.value.Correct() else data != []
    ensures SendStep(c, s, data, io).1.None?
  {
    hide ChunkAAD;
  }

  // Every chunk sent moves the sequence on, and it cannot pass the byte count.
  ghost predicate Counted(c: TxConfig, start: TxState, s: TxState) {
    && |start.hashed| <= |s.hashed| && start.sequence <= s.sequence
    && s.sequence - start.sequence <= |s.hashed| - |start.hashed|
    && (|start.hashed| < |s.hashed| ==> start.sequence < s.sequence)
  }

  lemma {:induction false} HealthyLoop(c: TxConfig, source: Bytes, start: TxState, s: TxState, turns: seq<Turn>)
    requires c.transferID != "" && |source| < TWO_TO_63
    requires c.encryption.Some? ==> c.encryption.value.Correct()
    requires AtSource(c, source, s) && Counted(c, start, s) && start.sequence + |source| < TWO_TO_64
    requires Healthy(c, source[|s.hashed|..], turns)
    ensures var l := ReadLoop(c, s, turns); l.error.None? && Counted(c, start, l.state)
    decreases |turns|
  {
    hide SendStep;
    var turn := turns[0];
    var rest := source[|s.hashed|..];
    if turn.data == [] {
      if turn.end.More? {
        assert rest[0..] == rest;
        HealthyLoop(c, source, start, s, turns[1..]);
      }
    } else {
      GoodSendSucceeds(c, s, turn.data, turn.io);
      SendEffect(c, s, turn.data, turn.io);
      SendStaysAtSource(c, source, s, turn.data, turn.io);
      var t := SendStep(c, s, turn.data, turn.io).0;
      assert source[|t.hashed|..] == rest[|turn.data|..];
      if turn.end.More? { HealthyLoop(c, source, start, t, turns[1..]); }
    }
  }

  lemma ManifestIsValid(c: TxConfig, s: TxState)
    requires c.transferID != "" && s.total >= 0 && (s.sequence == 0 ==> s.total == 0)
    ensures ValidateFrame(ManifestFrame(FinalManifest(c, s))).None?
  {
  }

  lemma ConcludeSucceeds(c: TxConfig, s: TxState, script: Script)
    requires c.transferID != "" && s.total >= 0 && (s.sequence == 0 ==> s.total == 0)
    requires c.encryption.Some? ==> c.encryption.value.Correct()
    requires GoodIO(c, script.sentinel) && script.manifestSent
    requires c.resume.Some? ==> c.resume.value.totalBytes == s.total
    ensures Conclude(c, s, script).result.Finished?
  {
    hide SendStep, ValidateFrame;
    if NeedsSentinel(c, s) {
      GoodSendSucceeds(c, s, [], script.sentinel);
      SendEffect(c, s, [], script.sentinel);
      ManifestIsValid(c, SendStep(c, s, [], script.sentinel).0);
    } else {
      ManifestIsValid(c, s);
    }
  }

  // With a faithful reader, nonces to draw and a channel that takes frames, the
  // stream finishes, fresh or resumed, whatever the split. The resume point
  // must be one the daemon computes: a sequence within the offset.
  lemma UndisturbedStreamFinishes(c: TxConfig, source: Bytes, script: Script)
    requires c.transferID != "" && |source| < TWO_TO_63
    requires if c.encryption.Some? then c.encryption.value.Correct() else c.allowPlaintext
    requires StartSending(c, source).Ok?
    requires c.resume.Some? ==>
      && c.resume.value.totalBytes == |source| && c.resume.value.nextSequence <= c.resume.value.nextOffset
      && (c.resume.value.nextOffset > 0 ==> c.resume.value.nextSequence > 0)
    requires Healthy(c, source[StartOffset(c)..], script.turns)
    requires GoodIO(c, script.sentinel) && script.manifestSent
    ensures Stream(c, source, script).result.Finished?
  {
    hide SendStep, ReadLoop, Conclude, Healthy, Delivers;
    var s := StartSending(c, source).value;
    HealthyLoop(c, source, s, s, script.turns);
    HealthyDelivers(c, source[StartOffset(c)..], script.turns);
    LoopStaysAtSource(c, source, s, script.turns);
    var l := ReadLoop(c, s, script.turns).state;
    ConcludeSucceeds(c, l, script);
  }
}
