// Sender and receiver together over a channel that keeps order: whatever the
// reader's splitting, every frame is accepted and the manifest closes the file.
module StreamSimulation {
  import opened Wrappers
  import opened GoIntegers
  import opened ChunkCrypto
  import opened Frames
  import opened ReceiverProtocol
  import opened ReceiverLatch
  import opened SenderProtocol
  import opened PrefixSafety

  // The reader hands out rest in order, in pieces of any size, empty ones
  // included, and reports end of file (perhaps with the last piece) only when
  // all of it is out. It may also fail or be cancelled at any turn.
  ghost predicate Delivers(rest: Bytes, turns: seq<Turn>)
    decreases |turns|
  {
    turns != [] ==>
      && turns[0].data <= rest
      && (turns[0].end.Eof? ==> turns[0].data == rest)
      && (turns[0].end.More? ==> Delivers(rest[|turns[0].data|..], turns[1..]))
  }

  // Both ends of one transfer: the same key, or both in the clear.
  ghost predicate Paired(c: TxConfig, r: RxConfig) {
    && c.transferID == r.transferID && c.digest == r.digest
    && c.encryption == r.options.encryption
    && (c.encryption.Some? ==> c.encryption.value.Correct())
    && (c.encryption.None? ==> !r.DemandsEncryption() && r.options.allowPlaintext)
  }

  predicate Matched(s: TxState, rx: RxState) {
    && rx.nextSeq == s.sequence && rx.offset == s.total && rx.hashed == s.hashed
    && !rx.complete && !rx.failed
  }

  function InOrder(frames: seq<Frame>): (ms: seq<Delivery>)
    ensures |ms| == |frames|
  {
    seq(|frames|, i requires 0 <= i < |frames| => Delivery(Json(frames[i]), WriteAll))
  }

  // The receiver has been fed everything sent, took every frame as a chunk,
  // and stands where the sender stands.
  ghost predicate Synced(r: RxConfig, rx0: RxState, s: TxState) {
    var p := Play(r, rx0, InOrder(s.sent));
    && Matched(s, p.state)
    && rx0.hashed + p.state.written == s.hashed
    && forall k :: 0 <= k < |p.results| ==> p.results[k] == Ok(None)
  }

  lemma SendEffect(c: TxConfig, s: TxState, plaintext: Bytes, io: ChunkIO)
    requires c.transferID != "" && SendStep(c, s, plaintext, io).1.None?
    ensures var t := SendStep(c, s, plaintext, io).0;
      && |t.sent| == |s.sent| + 1 && t.sent[..|s.sent|] == s.sent
      && t.hashed == s.hashed + plaintext && t.total == WrapInt64(s.total + |plaintext|)
      && t.sequence == WrapUint64(s.sequence + 1)
      && var f := t.sent[|s.sent|];
         ValidateFrame(f).None? && f.frameType.Chunk? && f.transferID == c.transferID
         && f.sequence == s.sequence && f.offset == s.total
         && (c.encryption.None? ==> f.encryption.None? && f.data == plaintext)
         && (c.encryption.Some? ==>
               && f.encryption.Some? && ValidateEncryption(f.encryption.value).None?
               && f.data == c.encryption.value.seal(f.encryption.value.nonce, plaintext,
                                                    ChunkAAD(c.transferID, s.sequence, s.total)))
  {
    hide ChunkAAD, ValidateFrame;
  }

  lemma SentChunkOpens(c: TxConfig, r: RxConfig, s: TxState, plaintext: Bytes, io: ChunkIO)
    requires c.transferID != "" && Paired(c, r) && SendStep(c, s, plaintext, io).1.None?
    ensures var t := SendStep(c, s, plaintext, io).0;
            |t.sent| == |s.sent| + 1 && ChunkPlaintext(r, t.sent[|s.sent|]) == Ok(plaintext)
  {
    hide ChunkAAD, ValidateFrame, SendStep;
    SendEffect(c, s, plaintext, io);
  }

  // A chunk that was sent is taken by a receiver standing where the sender stood.
  lemma SentChunkAccepted(c: TxConfig, r: RxConfig, s: TxState, rx: RxState, plaintext: Bytes, io: ChunkIO)
    requires c.transferID != "" && Paired(c, r) && SendStep(c, s, plaintext, io).1.None? && Matched(s, rx)
    ensures var t := SendStep(c, s, plaintext, io).0;
      && |t.sent| == |s.sent| + 1
      && var (rx', res) := AcceptStep(r, rx, Json(t.sent[|s.sent|]), WriteAll);
         res == Ok(None) && Matched(t, rx') && rx'.written == rx.written + plaintext
  {
    hide ChunkAAD, ValidateFrame, SendStep, ChunkPlaintext;
    SendEffect(c, s, plaintext, io);
    SentChunkOpens(c, r, s, plaintext, io);
    assert plaintext[..|plaintext|] == plaintext;
  }

  lemma SendKeepsSync(c: TxConfig, r: RxConfig, rx0: RxState, s: TxState, plaintext: Bytes, io: ChunkIO)
    requires c.transferID != "" && Paired(c, r) && Synced(r, rx0, s) && SendStep(c, s, plaintext, io).1.None?
    ensures Synced(r, rx0, SendStep(c, s, plaintext, io).0)
  {
    hide SendStep, AcceptStep;
    var p := Play(r, rx0, InOrder(s.sent));
    var t := SendStep(c, s, plaintext, io).0;
    SentChunkAccepted(c, r, s, p.state, plaintext, io);
    SendEffect(c, s, plaintext, io);
    assert InOrder(t.sent)[..|s.sent|] == InOrder(s.sent);
    assert rx0.hashed + (p.state.written + plaintext) == s.hashed + plaintext;
  }

  // A failed send leaves no frame and no hashed byte behind.
  lemma FailedSendEffect(c: TxConfig, s: TxState, plaintext: Bytes, io: ChunkIO)
    requires SendStep(c, s, plaintext, io).1.Some?
    ensures var t := SendStep(c, s, plaintext, io).0; t == s.(sealed := t.sealed)
  {
    hide ChunkAAD, ValidateFrame;
  }

  lemma {:induction false} LoopKeepsSync(c: TxConfig, r: RxConfig, rx0: RxState, s: TxState, turns: seq<Turn>)
    requires c.transferID != "" && Paired(c, r) && Synced(r, rx0, s)
    ensures Synced(r, rx0, ReadLoop(c, s, turns).state)
    decreases |turns|
  {
    hide SendStep, Play;
    if turns != [] && !turns[0].cancelled {
      var turn := turns[0];
      if turn.data == [] {
        if turn.end.More? { LoopKeepsSync(c, r, rx0, s, turns[1..]); }
      } else {
        var (t, e) := SendStep(c, s, turn.data, turn.io);
        if e.Some? {
          FailedSendEffect(c, s, turn.data, turn.io);
        } else {
          SendKeepsSync(c, r, rx0, s, turn.data, turn.io);
          if turn.end.More? { LoopKeepsSync(c, r, rx0, t, turns[1..]); }
        }
      }
    }
  }

  // Where the sender stands in its source, and what it has sealed.
  ghost predicate AtSource(c: TxConfig, source: Bytes, s: TxState) {
    && s.hashed <= source && s.total == |s.hashed|
    && forall k :: 0 <= k < |s.sealed| ==>
         s.sealed[k].transferID == c.transferID && SliceAt(source, s.sealed[k].offset, s.sealed[k].plaintext)
  }

  lemma SealedEffect(c: TxConfig, s: TxState, plaintext: Bytes, io: ChunkIO)
    ensures var t := SendStep(c, s, plaintext, io).0;
      || t.sealed == s.sealed
      || (&& |t.sealed| == |s.sealed| + 1 && t.sealed[..|s.sealed|] == s.sealed
          && var k := t.sealed[|s.sealed|];
             k.transferID == c.transferID && k.offset == s.total && k.plaintext == plaintext)
  {
    hide ChunkAAD, ValidateFrame;
  }

  lemma SendStaysAtSource(c: TxConfig, source: Bytes, s: TxState, data: Bytes, io: ChunkIO)
    requires c.transferID != "" && |source| < TWO_TO_63
    requires AtSource(c, source, s) && data <= source[|s.hashed|..]
    ensures AtSource(c, source, SendStep(c, s, data, io).0)
  {
    hide SendStep;
    SealedEffect(c, s, data, io);
    var (t, e) := SendStep(c, s, data, io);
    assert source[|s.hashed|..|s.hashed| + |data|] == data;
    if e.Some? {
      FailedSendEffect(c, s, data, io);
    } else {
      SendEffect(c, s, data, io);
      ExtendPrefix(source, s.hashed, data, |data|);
      assert data[..|data|] == data;
      assert WrapInt64(s.total + |data|) == s.total + |data|;
    }
    forall k | 0 <= k < |t.sealed|
      ensures t.sealed[k].transferID == c.transferID && SliceAt(source, t.sealed[k].offset, t.sealed[k].plaintext)
    {
      if k < |s.sealed| {
        assert t.sealed[k] == t.sealed[..|s.sealed|][k];
      }
    }
  }

  lemma {:induction false} LoopStaysAtSource(c: TxConfig, source: Bytes, s: TxState, turns: seq<Turn>)
    requires c.transferID != "" && |source| < TWO_TO_63
    requires AtSource(c, source, s) && Delivers(source[|s.hashed|..], turns)
    ensures var l := ReadLoop(c, s, turns);
            AtSource(c, source, l.state) && (l.error.None? ==> l.state.hashed == source)
    decreases |turns|
  {
    hide SendStep;
    if turns != [] && !turns[0].cancelled {
      var turn := turns[0];
      var rest := source[|s.hashed|..];
      if turn.data == [] {
        if turn.end.More? {
          assert rest[0..] == rest;
          LoopStaysAtSource(c, source, s, turns[1..]);
        } else if turn.end.Eof? {
          assert s.hashed == source;
        }
      } else {
        var (t, e) := SendStep(c, s, turn.data, turn.io);
        SendStaysAtSource(c, source, s, turn.data, turn.io);
        if e.None? {
          SendEffect(c, s, turn.data, turn.io);
          assert source[|t.hashed|..] == rest[|turn.data|..];
          if turn.end.More? {
            LoopStaysAtSource(c, source, t, turns[1..]);
          } else if turn.end.Eof? {
            assert t.hashed == s.hashed + rest == source;
          }
        }
      }
    }
  }

  // Where a stream over this source starts reading.
  function StartOffset(c: TxConfig): int { if c.resume.Some? then c.resume.value.nextOffset else 0 }

  // Everything one stream ever seals is its source's own slice at the offset
  // it claims, sent or not, finished or not: the stream only adds honest
  // entries to the sealing log.
  lemma StreamSealsHonestly(c: TxConfig, source: Bytes, script: Script)
    requires |source| < TWO_TO_63
    requires 0 <= StartOffset(c) <= |source| ==> Delivers(source[StartOffset(c)..], script.turns)
    ensures AtSource(c, source, Stream(c, source, script).state)
    ensures Stream(c, source, script).result.Finished? ==>
      && Stream(c, source, script).state.hashed == source
      && StartSending(c, source).Ok?
  {
    hide SendStep, ValidateFrame, ReadLoop;
    if c.transferID != "" && (c.encryption.Some? || c.allowPlaintext) && StartSending(c, source).Ok? {
      var s := StartSending(c, source).value;
      LoopStaysAtSource(c, source, s, script.turns);
      var l := ReadLoop(c, s, script.turns).state;
      if NeedsSentinel(c, l) {
        SendStaysAtSource(c, source, l, [], script.sentinel);
        if SendStep(c, l, [], script.sentinel).1.None? {
          SendEffect(c, l, [], script.sentinel);
        }
      }
    }
  }

  lemma ManifestAccepted(c: TxConfig, r: RxConfig, s: TxState, rx: RxState)
    requires c.transferID != "" && Paired(c, r) && Matched(s, rx)
    requires ValidateFrame(ManifestFrame(FinalManifest(c, s))).None?
    requires c.encryption.Some? ==> s.sequence != 0
    ensures AcceptStep(r, rx, Json(ManifestFrame(FinalManifest(c, s))), WriteAll)
            == (rx.(complete := true), Ok(Some(FinalManifest(c, s))))
  {
    hide ChunkAAD;
  }

  lemma ConcludeEffect(c: TxConfig, r: RxConfig, rx0: RxState, s: TxState, script: Script)
    requires c.transferID != "" && Paired(c, r) && Synced(r, rx0, s)
    ensures var o := Conclude(c, s, script);
      if o.result.Finished? then
        && |o.state.sent| > 0
        && var before := o.state.(sent := o.state.sent[..|o.state.sent| - 1]);
           Synced(r, rx0, before)
           && o.result.manifest == FinalManifest(c, before)
           && o.state.sent[|o.state.sent| - 1] == ManifestFrame(o.result.manifest)
           && ValidateFrame(ManifestFrame(o.result.manifest)).None?
           && (c.encryption.Some? ==> before.sequence != 0)
           && (c.resume.Some? ==> c.resume.value.totalBytes == before.total)
           && (before.hashed == s.hashed)
      else Synced(r, rx0, o.state)
  {
    hide SendStep, Play;
    if NeedsSentinel(c, s) {
      var (t, e) := SendStep(c, s, [], script.sentinel);
      if e.Some? {
        FailedSendEffect(c, s, [], script.sentinel);
      } else {
        SendEffect(c, s, [], script.sentinel);
        SendKeepsSync(c, r, rx0, s, [], script.sentinel);
        assert (t.sent + [ManifestFrame(FinalManifest(c, t))])[..|t.sent|] == t.sent;
      }
    } else {
      assert (s.sent + [ManifestFrame(FinalManifest(c, s))])[..|s.sent|] == s.sent;
    }
  }

  // The state a receiver starts in when it meets a sender starting here.
  ghost predicate Meets(c: TxConfig, source: Bytes, rx0: RxState) {
    && Starting(rx0) && StartSending(c, source).Ok?
    && Matched(StartSending(c, source).value, rx0)
  }

  // An unfinished stream: every frame it sent is a chunk the receiver takes,
  // and both have hashed the same bytes.
  lemma StreamSyncs(c: TxConfig, r: RxConfig, source: Bytes, script: Script, rx0: RxState)
    requires Paired(c, r) && Meets(c, source, rx0)
    requires !Stream(c, source, script).result.Finished?
    ensures var o := Stream(c, source, script).state;
            var p := Play(r, rx0, InOrder(o.sent));
      && (forall k :: 0 <= k < |p.results| ==> p.results[k] == Ok(None))
      && (o.sent != [] ==> rx0.hashed + p.state.written == o.hashed)
  {
    hide SendStep, ReadLoop, Conclude, AcceptStep;
    if c.transferID != "" && (c.encryption.Some? || c.allowPlaintext) {
      var s := StartSending(c, source).value;
      assert Synced(r, rx0, s);
      LoopKeepsSync(c, r, rx0, s, script.turns);
      ConcludeEffect(c, r, rx0, ReadLoop(c, s, script.turns).state, script);
    }
  }

  lemma StartIsSynced(c: TxConfig, r: RxConfig, source: Bytes, rx0: RxState)
    requires Paired(c, r) && Meets(c, source, rx0)
    ensures Synced(r, rx0, StartSending(c, source).value)
  {
    assert rx0.hashed + [] == rx0.hashed;
  }

  lemma LastFramePlayed(r: RxConfig, rx0: RxState, frames: seq<Frame>)
    requires frames != []
    ensures var n := |frames| - 1;
      var q := Play(r, rx0, InOrder(frames[..n]));
      var (t, res) := AcceptStep(r, q.state, Json(frames[n]), WriteAll);
      Play(r, rx0, InOrder(frames)) == Played(t, q.results + [res])
  {
    hide AcceptStep;
    assert InOrder(frames)[..|frames| - 1] == InOrder(frames[..|frames| - 1]);
  }

  // A finished stream: every frame is accepted in order, the receiver writes
  // exactly what was missing, and returns exactly the sender's manifest.
  lemma FinishedStreamIsReceived(c: TxConfig, r: RxConfig, source: Bytes, script: Script, rx0: RxState)
    requires Paired(c, r) && Meets(c, source, rx0) && |source| < TWO_TO_63
    requires Delivers(source[StartOffset(c)..], script.turns)
    requires Stream(c, source, script).result.Finished?
    ensures var o := Stream(c, source, script);
            var p := Play(r, rx0, InOrder(o.state.sent));
            var n := |o.state.sent|;
      && n > 0
      && (forall k :: 0 <= k < n - 1 ==> p.results[k] == Ok(None))
      && p.results[n - 1] == Ok(Some(o.result.manifest))
      && p.state.complete
      && rx0.hashed + p.state.written == source
      && o.result.manifest.totalBytes == |source|
      && o.result.manifest.sha256Hex == c.digest(source)
  {
    hide SendStep, ReadLoop, Conclude, AcceptStep, ValidateFrame, Play, Delivers;
    var s := StartSending(c, source).value;
    StartIsSynced(c, r, source, rx0);
    var l := ReadLoop(c, s, script.turns).state;
    LoopKeepsSync(c, r, rx0, s, script.turns);
    ConcludeEffect(c, r, rx0, l, script);
    StreamSealsHonestly(c, source, script);
    var o := Stream(c, source, script);
    var n := |o.state.sent|;
    var before := o.state.(sent := o.state.sent[..n - 1]);
    ManifestAccepted(c, r, before, Play(r, rx0, InOrder(before.sent)).state);
    LastFramePlayed(r, rx0, o.state.sent);
  }

  // The fresh case, for every source, the empty one included, and every way
  // its reader splits it.
  lemma FreshStreamIsReceived(c: TxConfig, r: RxConfig, source: Bytes, script: Script)
    requires Paired(c, r) && c.resume.None? && |source| < TWO_TO_63
    requires Delivers(source, script.turns)
    requires Stream(c, source, script).result.Finished?
    ensures var o := Stream(c, source, script);
            var p := Play(r, Fresh(), InOrder(o.state.sent));
            var n := |o.state.sent|;
      && n > 0
      && (forall k :: 0 <= k < n - 1 ==> p.results[k] == Ok(None))
      && p.results[n - 1] == Ok(Some(o.result.manifest))
      && p.state.written == source
      && o.result.manifest.totalBytes == |source|
      && o.result.manifest.sha256Hex == c.digest(source)
  {
    hide Stream, Play;
    assert source[0..] == source;
    FinishedStreamIsReceived(c, r, source, script, Fresh());
    var w := Play(r, Fresh(), InOrder(Stream(c, source, script).state.sent)).state.written;
    assert [] + w == w;
  }
}
