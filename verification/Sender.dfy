// The chunk sender (internal/p2p/sender.go).
module SenderProtocol {
  import opened Wrappers
  import opened GoIntegers
  import opened ChunkCrypto
  import opened Frames

  datatype TxConfig = TxConfig(transferID: string, encryption: Option<Aead>, allowPlaintext: bool,
                               resume: Option<ResumeManifest>, digest: Hash)

  datatype ReadEnd = More | Eof | ReadFailed

  // The outside world during one sendChunk: the nonce drawn from the random
  // source, if it answers; whether the backpressure wait ends in time; whether
  // the channel takes the frame.
  datatype ChunkIO = ChunkIO(nonce: Option<Nonce>, waited: bool, sent: bool)

  // One turn of the read loop: is the context cancelled at its top, what does
  // the source's Read return, and how does sending go.
  datatype Turn = Turn(cancelled: bool, data: Bytes, end: ReadEnd, io: ChunkIO)

  // A whole run of the sender's environment. When the turns run out the
  // context is cancelled.
  datatype Script = Script(turns: seq<Turn>, sentinel: ChunkIO, manifestSent: bool)

  // hashed: what the running digest has taken; sent: the frames the channel
  // has taken; sealed: every chunk sealed, sent or not.
  datatype TxState = TxState(total: int64, sequence: uint64, hashed: Bytes,
                             sent: seq<Frame>, sealed: seq<SealedChunk>)

  datatype TxResult = Finished(manifest: Manifest) | Aborted(error: P2PError)

  datatype TxOutcome = TxOutcome(state: TxState, result: TxResult)

  function SealStep(c: TxConfig, s: TxState, plaintext: Bytes, nonce: Nonce): SealedChunk
    requires c.encryption.Some?
  {
    SealedChunk(c.transferID, s.sequence, s.total, nonce, plaintext,
                c.encryption.value.seal(nonce, plaintext, ChunkAAD(c.transferID, s.sequence, s.total)))
  }

  // sendChunk up to handing the frame to the channel: the sealing log, and
  // the encoded frame.
  function BuildChunk(c: TxConfig, s: TxState, plaintext: Bytes, io: ChunkIO): (TxState, Result<Frame, P2PError>) {
    if c.encryption.None? then
      var f := ChunkFrame(c.transferID, s.sequence, s.total, plaintext, None);
      (s, if ValidateFrame(f).Some? then Err(ValidateFrame(f).value) else Ok(f))
    else if io.nonce.None? then (s, Err(TransferFailed))
    else
      var r := SealStep(c, s, plaintext, io.nonce.value);
      var f := ChunkFrame(c.transferID, s.sequence, s.total, r.ciphertext,
                          Some(EncryptionMetadata(ENCRYPTION_ALGORITHM, r.nonce)));
      (s.(sealed := s.sealed + [r]), if ValidateFrame(f).Some? then Err(ValidateFrame(f).value) else Ok(f))
  }

  // sendChunk and, when it succeeds, the loop's bookkeeping after it.
  function SendStep(c: TxConfig, s: TxState, plaintext: Bytes, io: ChunkIO): (TxState, Option<P2PError>) {
    var (t, f) := BuildChunk(c, s, plaintext, io);
    if f.Err? then (t, Some(f.error))
    else if !io.waited || !io.sent then (t, Some(TransferFailed))
    else (t.(sent := s.sent + [f.value], hashed := s.hashed + plaintext,
             total := WrapInt64(s.total + |plaintext|), sequence := WrapUint64(s.sequence + 1)), None)
  }

  datatype LoopOutcome = LoopOutcome(state: TxState, error: Option<P2PError>)

  // The read loop, up to end of file (no error) or the first failure.
  function ReadLoop(c: TxConfig, s: TxState, turns: seq<Turn>): LoopOutcome
    decreases |turns|
  {
    if turns == [] || turns[0].cancelled then LoopOutcome(s, Some(TransferFailed))
    else
      var turn := turns[0];
      var (t, e) := if turn.data != [] then SendStep(c, s, turn.data, turn.io) else (s, None);
      if e.Some? then LoopOutcome(t, e)
      else match turn.end
        case Eof => LoopOutcome(t, None)
        case ReadFailed => LoopOutcome(t, Some(TransferFailed))
        case More => ReadLoop(c, t, turns[1..])
  }

  function FinalManifest(c: TxConfig, s: TxState): Manifest {
    Manifest(c.transferID, s.total, s.sequence, c.digest(s.hashed))
  }

  // The manifest, after the loop and the empty-file sentinel.
  function SendManifest(c: TxConfig, s: TxState, sent: bool): TxOutcome {
    var f := ManifestFrame(FinalManifest(c, s));
    if c.resume.Some? && c.resume.value.totalBytes != s.total then TxOutcome(s, Aborted(ManifestMismatch))
    else if ValidateFrame(f).Some? then TxOutcome(s, Aborted(ValidateFrame(f).value))
    else if !sent then TxOutcome(s, Aborted(TransferFailed))
    else TxOutcome(s.(sent := s.sent + [f]), Finished(FinalManifest(c, s)))
  }

  predicate NeedsSentinel(c: TxConfig, s: TxState) {
    s.total == 0 && s.sequence == 0 && c.encryption.Some?
  }

  function Conclude(c: TxConfig, s: TxState, script: Script): TxOutcome {
    if NeedsSentinel(c, s) then
      var (t, e) := SendStep(c, s, [], script.sentinel);
      if e.Some? then TxOutcome(t, Aborted(e.value)) else SendManifest(c, t, script.manifestSent)
    else SendManifest(c, s, script.manifestSent)
  }

  // prepareSenderResume on a source that still holds all of its bytes: the
  // state the loop starts from.
  function StartSending(c: TxConfig, source: Bytes): Result<TxState, P2PError> {
    if c.resume.None? then Ok(TxState(0, 0, [], [], []))
    else
      var r := c.resume.value;
      if r.transferID != c.transferID then Err(UnexpectedTransferID)
      else if r.nextOffset < 0 || r.nextOffset > r.totalBytes then Err(ResumePastTotalBytes)
      else if |source| < r.nextOffset then Err(UnexpectedOffset)
      else if c.digest(source[..r.nextOffset]) != r.sha256Hex then Err(ResumeDigestMismatch)
      else Ok(TxState(r.nextOffset, r.nextSequence, source[..r.nextOffset], [], []))
  }

  // StreamReader as a whole: source is what the reader held when the resume
  // check read its prefix, the script is everything that happens after.
  function Stream(c: TxConfig, source: Bytes, script: Script): TxOutcome {
    var nothing := TxState(0, 0, [], [], []);
    if c.transferID == "" then TxOutcome(nothing, Aborted(TransferIDRequired))
    else if c.encryption.None? && !c.allowPlaintext then TxOutcome(nothing, Aborted(EncryptionRequired))
    else
      var start := StartSending(c, source);
      if start.Err? then TxOutcome(nothing, Aborted(start.error))
      else
        var l := ReadLoop(c, start.value, script.turns);
        if l.error.Some? then TxOutcome(l.state, Aborted(l.error.value)) else Conclude(c, l.state, script)
  }

  // ---- What stops a sender, and with which error ----

  // The frame a chunk is sent as, if a nonce was drawn for it where it needs one.
  function FrameFor(c: TxConfig, s: TxState, plaintext: Bytes, nonce: Nonce): Frame {
    match c.encryption
    case None => ChunkFrame(c.transferID, s.sequence, s.total, plaintext, None)
    case Some(a) =>
      ChunkFrame(c.transferID, s.sequence, s.total, a.seal(nonce, plaintext, ChunkAAD(c.transferID, s.sequence, s.total)),
                 Some(EncryptionMetadata("AES-256-GCM", nonce)))
  }

  // The record of seals with this one, if a seal there was.
  function SealedBy(c: TxConfig, s: TxState, plaintext: Bytes, io: ChunkIO, nonce: Nonce): seq<SealedChunk> {
    if c.encryption.Some? && io.nonce.Some?
    then s.sealed + [SealedChunk(c.transferID, s.sequence, s.total, nonce, plaintext, FrameFor(c, s, plaintext, nonce).data)]
    else s.sealed
  }

  lemma BuildsExactly(c: TxConfig, s: TxState, plaintext: Bytes, io: ChunkIO, nonce: Nonce)
    requires io.nonce.Some? ==> io.nonce.value == nonce
    ensures var fault := ValidateFrame(FrameFor(c, s, plaintext, nonce));
      BuildChunk(c, s, plaintext, io)
      == (s.(sealed := SealedBy(c, s, plaintext, io, nonce)),
          if c.encryption.Some? && io.nonce.None? then Err(TransferFailed)
          else if fault.Some? then Err(fault.value) else Ok(FrameFor(c, s, plaintext, nonce)))
  {
    hide ChunkAAD, ValidateFrame;
  }

  // A chunk is sent and counted exactly if its nonce was drawn, its frame is well
  // formed, the wait ended and the channel took it; else nothing moves but the
  // record of the seal.
  lemma SendsExactly(c: TxConfig, s: TxState, plaintext: Bytes, io: ChunkIO, nonce: Nonce)
    requires io.nonce.Some? ==> io.nonce.value == nonce
    ensures var f := FrameFor(c, s, plaintext, nonce);
      var drawn := c.encryption.None? || io.nonce.Some?;
      var t := s.(sealed := SealedBy(c, s, plaintext, io, nonce));
      SendStep(c, s, plaintext, io)
      == if drawn && ValidateFrame(f).None? && io.waited && io.sent
         then (t.(total := WrapInt64(s.total + |plaintext|), sequence := WrapUint64(s.sequence + 1),
                  hashed := s.hashed + plaintext, sent := s.sent + [f]), None)
         else (t, Some(if drawn && ValidateFrame(f).Some? then ValidateFrame(f).value else TransferFailed))
  {
    hide BuildChunk, SealedBy, FrameFor, WrapInt64, WrapUint64, ValidateFrame;
    BuildsExactly(c, s, plaintext, io, nonce);
  }

  // The resume check: it passes exactly over a source that begins with what the
  // manifest describes.
  lemma StartsExactly(c: TxConfig, source: Bytes)
    ensures var r := StartSending(c, source);
      match c.resume
      case None => r == Ok(TxState(0, 0, [], [], []))
      case Some(m) =>
        r == if m.transferID != c.transferID then Err(UnexpectedTransferID)
             else if !(0 <= m.nextOffset <= m.totalBytes) then Err(P2PError.ResumePastTotalBytes)
             else if m.nextOffset > |source| then Err(UnexpectedOffset)
             else if c.digest(source[..m.nextOffset]) != m.sha256Hex then Err(ResumeDigestMismatch)
             else Ok(TxState(m.nextOffset, m.nextSequence, source[..m.nextOffset], [], []))
  {
  }

  // A turn after which the loop goes on: it is not cancelled, what was read has
  // been sent, and there is more to read.
  predicate Passes(c: TxConfig, s: TxState, turn: Turn) {
    !turn.cancelled && turn.end.More? && (turn.data != [] ==> SendStep(c, s, turn.data, turn.io).1.None?)
  }

  function AfterTurn(c: TxConfig, s: TxState, turn: Turn): TxState {
    if turn.data != [] then SendStep(c, s, turn.data, turn.io).0 else s
  }

  function AfterTurns(c: TxConfig, s: TxState, turns: seq<Turn>): TxState {
    if turns == [] then s else AfterTurn(c, AfterTurns(c, s, turns[..|turns| - 1]), turns[|turns| - 1])
  }

  predicate AllPass(c: TxConfig, s: TxState, turns: seq<Turn>) {
    turns != [] ==>
      AllPass(c, s, turns[..|turns| - 1]) && Passes(c, AfterTurns(c, s, turns[..|turns| - 1]), turns[|turns| - 1])
  }

  lemma {:induction false} TurnsPass(c: TxConfig, s: TxState, turns: seq<Turn>, n: nat)
    requires n <= |turns| && AllPass(c, s, turns[..n])
    ensures ReadLoop(c, s, turns) == ReadLoop(c, AfterTurns(c, s, turns[..n]), turns[n..])
    decreases n
  {
    hide SendStep;
    if n == 0 {
      assert turns[..0] == [] && turns[0..] == turns;
    } else {
      assert turns[..n][..n - 1] == turns[..n - 1];
      TurnsPass(c, s, turns, n - 1);
      assert turns[n - 1..][0] == turns[n - 1] && turns[n - 1..][1..] == turns[n..];
    }
  }

  // The loop ends well exactly at the first turn that reads the end of the file
  // and sends what it read; it fails at a cancelled turn, or when the turns run
  // out, a chunk is not sent or the reader fails, with what was sent before.
  lemma LoopEndsExactly(c: TxConfig, s: TxState, turns: seq<Turn>, n: nat)
    requires n <= |turns| && AllPass(c, s, turns[..n])
    requires n < |turns| ==> !Passes(c, AfterTurns(c, s, turns[..n]), turns[n])
    ensures var before := AfterTurns(c, s, turns[..n]);
      var o := ReadLoop(c, s, turns);
      if n == |turns| || turns[n].cancelled then o == LoopOutcome(before, Some(TransferFailed))
      else
        var (t, e) := SendStep(c, before, turns[n].data, turns[n].io);
        if turns[n].data != [] && e.Some? then o == LoopOutcome(t, e)
        else
          && o.state == AfterTurn(c, before, turns[n])
          && o.error == if turns[n].end.ReadFailed? then Some(TransferFailed) else None
  {
    hide SendStep;
    TurnsPass(c, s, turns, n);
    if n < |turns| { assert turns[n..][0] == turns[n]; }
  }

  // The end of a stream: the sentinel of an encrypted stream that sent nothing,
  // then the manifest, unless a resume was for another size, it is malformed, or
  // the channel fails.
  lemma ConcludesExactly(c: TxConfig, s: TxState, script: Script)
    ensures var o := Conclude(c, s, script);
      var sentinel := s.total == 0 && s.sequence == 0 && c.encryption.Some?;
      var (t, e) := if sentinel then SendStep(c, s, [], script.sentinel) else (s, None);
      var m := Manifest(c.transferID, t.total, t.sequence, c.digest(t.hashed));
      if e.Some? then o == TxOutcome(t, Aborted(e.value))
      else if c.resume.Some? && c.resume.value.totalBytes != t.total then o == TxOutcome(t, Aborted(ManifestMismatch))
      else if ValidateFrame(ManifestFrame(m)).Some? then o == TxOutcome(t, Aborted(ValidateFrame(ManifestFrame(m)).value))
      else if !script.manifestSent then o == TxOutcome(t, Aborted(TransferFailed))
      else o == TxOutcome(t.(sent := t.sent + [ManifestFrame(m)]), Finished(m))
  {
    hide SendStep, ValidateFrame;
  }

  // A stream that does not begin sends nothing.
  lemma StreamRefusals(c: TxConfig, source: Bytes, script: Script)
    ensures var o := Stream(c, source, script);
      && (c.transferID == "" ==> o.result == Aborted(TransferIDRequired) && o.state.sent == [])
      && (c.transferID != "" && c.encryption.None? && !c.allowPlaintext ==> o.result == Aborted(EncryptionRequired) && o.state.sent == [])
      && (c.transferID != "" && (c.encryption.Some? || c.allowPlaintext) && StartSending(c, source).Err? ==>
            o.result == Aborted(StartSending(c, source).error) && o.state.sent == [])
  {
    hide ReadLoop, StartSending;
  }

  // The outbound data channel: the frames it has taken, oldest first.
  class DataChannel {
    var sent: seq<Frame>

    constructor ()
      ensures sent == []
    {
      sent := [];
    }

    method Send(f: Frame)
      modifies this
      ensures sent == old(sent) + [f]
    {
      sent := sent + [f];
    }
  }

  // One sendChunk of the program: the frame reaches the channel only when
  // everything before it went well.
  method SendChunk(c: TxConfig, channel: DataChannel, sequence: uint64, offset: int64, plaintext: Bytes, io: ChunkIO,
                   ghost s: TxState)
    returns (e: Option<P2PError>, ghost t: TxState)
    requires s.sequence == sequence && s.total == offset && s.sent == channel.sent
    modifies channel
    ensures (t, e) == SendStep(c, s, plaintext, io)
    ensures channel.sent == t.sent
    ensures e.None? ==>
      && t.hashed == s.hashed + plaintext
      && t.total == WrapInt64(offset + |plaintext|)
      && t.sequence == WrapUint64(sequence + 1)
  {
    ghost var built := BuildChunk(c, s, plaintext, io);
    t := built.0;
    var frameData, encryption := plaintext, None;
    if c.encryption.Some? {
      if io.nonce.None? { return Some(TransferFailed), t; }
      frameData := c.encryption.value.seal(io.nonce.value, plaintext, ChunkAAD(c.transferID, sequence, offset));
      encryption := Some(EncryptionMetadata(ENCRYPTION_ALGORITHM, io.nonce.value));
    }
    var frame := ChunkFrame(c.transferID, sequence, offset, frameData, encryption);
    var invalid := ValidateFrame(frame);
    if invalid.Some? { return invalid, t; }
    if !io.waited { return Some(TransferFailed), t; }
    if !io.sent { return Some(TransferFailed), t; }
    channel.Send(frame);
    t := SendStep(c, s, plaintext, io).0;
    e := None;
  }

  // StreamReader: the program's loop, with its running total, sequence
  // and hash as local variables.
  method StreamReader(c: TxConfig, source: Bytes, script: Script, channel: DataChannel)
    returns (result: TxResult, ghost final: TxState)
    requires channel.sent == []
    modifies channel
    ensures TxOutcome(final, result) == Stream(c, source, script)
    ensures channel.sent == final.sent
  {
    hide SendStep, ValidateFrame;
    ghost var nothing := TxState(0, 0, [], [], []);
    if c.transferID == "" { return Aborted(TransferIDRequired), nothing; }
    if c.encryption.None? && !c.allowPlaintext { return Aborted(EncryptionRequired), nothing; }
    var hash: Bytes, total: int64, sequence: uint64 := [], 0, 0;
    if c.resume.Some? {
      var resume := c.resume.value;
      if resume.transferID != c.transferID { return Aborted(UnexpectedTransferID), nothing; }
      if resume.nextOffset < 0 || resume.nextOffset > resume.totalBytes {
        return Aborted(ResumePastTotalBytes), nothing;
      }
      if |source| < resume.nextOffset { return Aborted(UnexpectedOffset), nothing; }
      hash := source[..resume.nextOffset];
      if c.digest(hash) != resume.sha256Hex { return Aborted(ResumeDigestMismatch), nothing; }
      total := resume.nextOffset;
      sequence := resume.nextSequence;
    }
    ghost var s := StartSending(c, source).value;
    ghost var whole := ReadLoop(c, s, script.turns);
    var i, atEof := 0, false;
    while !atEof
      invariant 0 <= i <= |script.turns|
      invariant s.total == total && s.sequence == sequence && s.hashed == hash && s.sent == channel.sent
      invariant whole == if atEof then LoopOutcome(s, None) else ReadLoop(c, s, script.turns[i..])
      decreases !atEof, |script.turns| - i
    {
      if i == |script.turns| || script.turns[i].cancelled { return Aborted(TransferFailed), s; }
      var turn := script.turns[i];
      assert script.turns[i..][0] == turn && script.turns[i..][1..] == script.turns[i + 1..];
      if turn.data != [] {
        var e;
        e, s := SendChunk(c, channel, sequence, total, turn.data, turn.io, s);
        if e.Some? { return Aborted(e.value), s; }
        hash := hash + turn.data;
        total := WrapInt64(total + |turn.data|);
        sequence := WrapUint64(sequence + 1);
      }
      match turn.end {
        case Eof => atEof := true;
        case ReadFailed => return Aborted(TransferFailed), s;
        case More => i := i + 1;
      }
    }
    if total == 0 && sequence == 0 && c.encryption.Some? {
      var e;
      e, s := SendChunk(c, channel, sequence, total, [], script.sentinel, s);
      if e.Some? { return Aborted(e.value), s; }
      sequence := WrapUint64(sequence + 1);
      assert hash + [] == hash;
    }
    var manifest := Manifest(c.transferID, total, sequence, c.digest(hash));
    if c.resume.Some? && c.resume.value.totalBytes != total { return Aborted(ManifestMismatch), s; }
    var frame := ManifestFrame(manifest);
    var invalid := ValidateFrame(frame);
    if invalid.Some? { return Aborted(invalid.value), s; }
    if !script.manifestSent { return Aborted(TransferFailed), s; }
    channel.Send(frame);
    final := s.(sent := channel.sent);
    result := Finished(manifest);
  }
}
