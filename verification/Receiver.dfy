// The chunk receiver (internal/p2p/receiver.go).
module ReceiverProtocol {
  import opened Wrappers
  import opened GoIntegers
  import opened ChunkCrypto
  import opened Frames

  datatype ReceiverOptions = ReceiverOptions(encryption: Option<Aead>, requireEncryption: bool, allowPlaintext: bool)

  datatype RxConfig = RxConfig(transferID: string, options: ReceiverOptions, digest: Hash)
  {
    // No chunk is taken in the clear.
    predicate DemandsEncryption() { options.requireEncryption || !options.allowPlaintext }
  }

  // written: what the destination has taken from this receiver;
  // hashed: what the running hash has taken, a resumed prefix included.
  datatype RxState = RxState(written: Bytes, hashed: Bytes, nextSeq: uint64, offset: int64,
                             complete: bool, failed: bool)

  // What the destination does with one Write: it takes everything, or some
  // bytes (at most all of them) with or without reporting an error.
  datatype WriteReply = WriteAll | WriteSome(taken: nat, failed: bool)

  function Taken(io: WriteReply, data: Bytes): (n: nat)
    ensures n <= |data|
  {
    if io.WriteSome? && io.taken < |data| then io.taken else |data|
  }

  predicate WriteFails(io: WriteReply) { io.WriteSome? && io.failed }

  function Fresh(): RxState { RxState([], [], 0, 0, false, false) }

  function DecryptChunk(cipher: Option<Aead>, f: Frame, m: EncryptionMetadata): Result<Bytes, P2PError> {
    if cipher.None? then Err(EncryptionRequired)
    else if ValidateEncryption(m).Some? then Err(ValidateEncryption(m).value)
    else
      var p := cipher.value.open(m.nonce, f.data, ChunkAAD(f.transferID, f.sequence, f.offset));
      if p.None? then Err(DecryptionFailed) else Ok(p.value)
  }

  function ChunkPlaintext(c: RxConfig, f: Frame): Result<Bytes, P2PError> {
    if f.encryption.Some? then DecryptChunk(c.options.encryption, f, f.encryption.value)
    else if c.DemandsEncryption() then Err(EncryptionRequired)
    else Ok(f.data)
  }

  function ChunkStep(c: RxConfig, s: RxState, f: Frame, io: WriteReply): (RxState, Option<P2PError>) {
    if f.sequence != s.nextSeq then (s, Some(UnexpectedSequence))
    else if f.offset != s.offset then (s, Some(UnexpectedOffset))
    else
      var p := ChunkPlaintext(c, f);
      if p.Err? then (s, Some(p.error))
      else
        var n := Taken(io, p.value);
        var w := s.(written := s.written + p.value[..n]);
        if WriteFails(io) || n != |p.value| then (w, Some(TransferFailed))
        else (w.(hashed := s.hashed + p.value,
                 offset := WrapInt64(s.offset + |p.value|),
                 nextSeq := WrapUint64(s.nextSeq + 1)), None)
  }

  function ManifestStep(c: RxConfig, s: RxState, f: Frame): Result<Manifest, P2PError> {
    if f.totalBytes != s.offset || f.chunkCount != s.nextSeq || f.sha256Hex != c.digest(s.hashed)
    then Err(ManifestMismatch)
    else Ok(Manifest(f.transferID, f.totalBytes, f.chunkCount, f.sha256Hex))
  }

  type AcceptResult = Result<Option<Manifest>, P2PError>

  function AcceptStep(c: RxConfig, s: RxState, w: Wire, io: WriteReply): (RxState, AcceptResult) {
    if c.transferID == "" then (s, Err(TransferFailed))
    else if s.complete then (s, Err(TransferComplete))
    else if s.failed then (s, Err(TransferFailed))
    else
      var d := DecodeFrame(w);
      if d.Err? then (s.(failed := true), Err(d.error))
      else if d.value.transferID != c.transferID then (s.(failed := true), Err(UnexpectedTransferID))
      else match d.value.frameType
        case Chunk =>
          var (t, e) := ChunkStep(c, s, d.value, io);
          if e.Some? then (t.(failed := true), Err(e.value)) else (t, Ok(None))
        case ManifestEnd =>
          if !c.options.allowPlaintext && s.nextSeq == 0 then (s.(failed := true), Err(EncryptionRequired))
          else
            var m := ManifestStep(c, s, d.value);
            if m.Err? then (s.(failed := true), Err(m.error)) else (s.(complete := true), Ok(Some(m.value)))
        case _ => (s.(failed := true), Err(UnsupportedFrameType))
  }

  // NewReceiverFromResume: durable is what the prefix reader delivers, broken
  // whether it reports an error other than end of file.
  function ResumeReceiver(c: RxConfig, durable: Bytes, broken: bool, resume: ResumeManifest): Result<RxState, P2PError> {
    if c.transferID == "" then Err(TransferFailed)
    else if resume.transferID != c.transferID then Err(UnexpectedTransferID)
    else if resume.nextOffset < 0 || resume.nextOffset > resume.totalBytes then Err(ResumePastTotalBytes)
    else if broken then Err(TransferFailed)
    else if |durable| < resume.nextOffset then Err(UnexpectedOffset)
    else if c.digest(durable[..resume.nextOffset]) != resume.sha256Hex then Err(ResumeDigestMismatch)
    else Ok(RxState([], durable[..resume.nextOffset], resume.nextSequence, resume.nextOffset, false, false))
  }

  // A receiver resumes exactly over a prefix its manifest describes; and which
  // error it gives otherwise.
  lemma ResumesExactly(c: RxConfig, durable: Bytes, broken: bool, resume: ResumeManifest)
    ensures var r := ResumeReceiver(c, durable, broken, resume);
      var named := c.transferID != "" && resume.transferID == c.transferID;
      var inside := 0 <= resume.nextOffset <= resume.totalBytes;
      var whole := !broken && resume.nextOffset <= |durable|;
      && (r.Ok? <==> named && inside && whole && c.digest(durable[..resume.nextOffset]) == resume.sha256Hex)
      && (r == Err(UnexpectedTransferID) <==> c.transferID != "" && resume.transferID != c.transferID)
      && (r == Err(P2PError.ResumePastTotalBytes) <==> named && !inside)
      && (r == Err(TransferFailed) <==> c.transferID == "" || (named && inside && broken))
      && (r == Err(UnexpectedOffset) <==> named && inside && !broken && |durable| < resume.nextOffset)
      && (r == Err(ResumeDigestMismatch) <==>
            named && inside && whole && c.digest(durable[..resume.nextOffset]) != resume.sha256Hex)
      && (r.Ok? ==>
            r.value.hashed == durable[..resume.nextOffset] && r.value.offset == resume.nextOffset
            && r.value.nextSeq == resume.nextSequence && r.value.written == [] && !r.value.complete && !r.value.failed)
  {
  }

  // So a manifest made of one prefix is refused over any other bytes, or a
  // digest collision is at hand.
  lemma ForeignPrefixIsRefused(c: RxConfig, x: Bytes, durable: Bytes, broken: bool, resume: ResumeManifest)
    requires resume.nextOffset == |x| && resume.sha256Hex == c.digest(x) && !(x <= durable)
    ensures ResumeReceiver(c, durable, broken, resume).Err?
            || (|x| <= |durable| && Collision(c.digest, x, durable[..|x|]))
  {
    ResumesExactly(c, durable, broken, resume);
  }

  // Why a message is refused, in the order of the checks.
  lemma RefusalsExactly(c: RxConfig, s: RxState, w: Wire, io: WriteReply)
    ensures var r := AcceptStep(c, s, w, io).1;
      && (c.transferID == "" ==> r == Err(TransferFailed))
      && (c.transferID != "" && s.complete ==> r == Err(TransferComplete))
      && (c.transferID != "" && !s.complete && s.failed ==> r == Err(TransferFailed))
      && (c.transferID != "" && !s.complete && !s.failed ==>
            && (DecodeFrame(w).Err? ==> r == Err(DecodeFrame(w).error))
            && (DecodeFrame(w).Ok? ==>
                  var f := DecodeFrame(w).value;
                  && (f.transferID != c.transferID ==> r == Err(UnexpectedTransferID))
                  && (f.transferID == c.transferID && f.frameType.Chunk? ==>
                        var p := ChunkPlaintext(c, f);
                        r == if f.sequence != s.nextSeq then Err(UnexpectedSequence)
                             else if f.offset != s.offset then Err(UnexpectedOffset)
                             else if p.Err? then Err(p.error)
                             else if WriteFails(io) || Taken(io, p.value) != |p.value| then Err(TransferFailed)
                             else Ok(None))
                  && (f.transferID == c.transferID && f.frameType.ManifestEnd? && r.Err? ==>
                        r == if !c.options.allowPlaintext && s.nextSeq == 0 then Err(EncryptionRequired) else Err(ManifestMismatch))
                  && (f.transferID == c.transferID && (f.frameType.AckPoint? || f.frameType.ResumePoint?) ==>
                        r == Err(UnsupportedFrameType))))
      && (r.Err? && c.transferID != "" && !s.complete && !s.failed ==> AcceptStep(c, s, w, io).0.failed)
  {
    hide ChunkPlaintext;
  }

  // What a write has taken: all, or as much as the disk says and no more than
  // there is; and whether it counts as failed.
  lemma WritesExactly(io: WriteReply, data: Bytes)
    ensures io == WriteAll ==> Taken(io, data) == |data| && !WriteFails(io)
    ensures io.WriteSome? ==> Taken(io, data) == (if io.taken >= |data| then |data| else io.taken) && (WriteFails(io) <==> io.failed)
  {
  }

  // What a chunk says: opened under its own place if it is encrypted, taken as
  // it is only where nothing demands encryption.
  lemma PlaintextExactly(c: RxConfig, f: Frame)
    ensures var p := ChunkPlaintext(c, f);
      match f.encryption
      case None => p == if c.options.requireEncryption || !c.options.allowPlaintext then Err(EncryptionRequired) else Ok(f.data)
      case Some(m) =>
        && (p.Ok? <==>
              && c.options.encryption.Some? && m.algorithm == ENCRYPTION_ALGORITHM && |m.nonce| == GCM_NONCE_SIZE
              && c.options.encryption.value.open(m.nonce, f.data, ChunkAAD(f.transferID, f.sequence, f.offset)).Some?)
        && (p.Ok? ==> c.options.encryption.value.open(m.nonce, f.data, ChunkAAD(f.transferID, f.sequence, f.offset)) == Some(p.value))
        && (p.Err? ==>
              p.error == if c.options.encryption.None? then EncryptionRequired
                         else if m.algorithm != ENCRYPTION_ALGORITHM then UnsupportedEncryptionAlgorithm
                         else if |m.nonce| != GCM_NONCE_SIZE then InvalidEncryptionMetadata
                         else DecryptionFailed)
  {
    hide ChunkAAD;
  }

  function ResumeAt(c: RxConfig, s: RxState, totalBytes: int64): ResumeManifest {
    ResumeManifest(c.transferID, s.nextSeq, s.offset, totalBytes, c.digest(s.hashed))
  }

  // The program's receiver object: a running hash, a destination and five
  // fields, updated in place.
  class Receiver {
    const transferID: string
    const options: ReceiverOptions
    const digest: Hash
    var written: Bytes
    var hash: Bytes
    var nextSeq: uint64
    var offset: int64
    var complete: bool
    var failed: bool

    ghost function Config(): RxConfig { RxConfig(transferID, options, digest) }

    ghost function State(): RxState
      reads this
    {
      RxState(written, hash, nextSeq, offset, complete, failed)
    }

    constructor (transferID: string, options: ReceiverOptions, digest: Hash)
      ensures State() == Fresh()
      ensures Config() == RxConfig(transferID, options, digest)
    {
      this.transferID, this.options, this.digest := transferID, options, digest;
      written, hash, nextSeq, offset, complete, failed := [], [], 0, 0, false, false;
    }

    // The constructor half of NewReceiverFromResume: re-hash the durable
    // prefix, check it against the manifest, then take up its position.
    method Resume(durable: Bytes, broken: bool, resume: ResumeManifest) returns (e: Option<P2PError>)
      requires State() == Fresh()
      modifies this
      ensures var r := ResumeReceiver(Config(), durable, broken, resume);
              e == (if r.Err? then Some(r.error) else None) && (r.Ok? ==> State() == r.value)
      ensures e.None? <==>
        && transferID != "" && resume.transferID == transferID && 0 <= resume.nextOffset <= resume.totalBytes
        && !broken && resume.nextOffset <= |durable| && digest(durable[..resume.nextOffset]) == resume.sha256Hex
      ensures e.None? ==> hash == durable[..resume.nextOffset] && offset == resume.nextOffset && nextSeq == resume.nextSequence
    {
      if transferID == "" { return Some(TransferFailed); }
      if resume.transferID != transferID { return Some(UnexpectedTransferID); }
      if resume.nextOffset < 0 || resume.nextOffset > resume.totalBytes { return Some(ResumePastTotalBytes); }
      if broken { return Some(TransferFailed); }
      var copied := if resume.nextOffset < |durable| then resume.nextOffset else |durable|;
      hash := durable[..copied];
      if copied != resume.nextOffset { return Some(UnexpectedOffset); }
      if digest(hash) != resume.sha256Hex { return Some(ResumeDigestMismatch); }
      nextSeq := resume.nextSequence;
      offset := resume.nextOffset;
      return None;
    }

    method Accept(message: Wire, io: WriteReply) returns (r: AcceptResult)
      modifies this
      ensures (State(), r) == AcceptStep(Config(), old(State()), message, io)
    {
      if transferID == "" { return Err(TransferFailed); }
      if complete { return Err(TransferComplete); }
      if failed { return Err(TransferFailed); }
      var decoded := DecodeFrame(message);
      if decoded.Err? {
        failed := true;
        return Err(decoded.error);
      }
      var frame := decoded.value;
      if frame.transferID != transferID {
        failed := true;
        return Err(UnexpectedTransferID);
      }
      match frame.frameType {
        case Chunk =>
          var e := AcceptChunk(frame, io);
          if e.Some? {
            failed := true;
            return Err(e.value);
          }
          return Ok(None);
        case ManifestEnd =>
          if !options.allowPlaintext && nextSeq == 0 {
            failed := true;
            return Err(EncryptionRequired);
          }
          var m := AcceptManifest(frame);
          if m.Err? {
            failed := true;
            return Err(m.error);
          }
          return Ok(Some(m.value));
        case _ =>
          failed := true;
          return Err(UnsupportedFrameType);
      }
    }

    method AcceptChunk(frame: Frame, io: WriteReply) returns (e: Option<P2PError>)
      modifies this
      ensures (State(), e) == ChunkStep(Config(), old(State()), frame, io)
    {
      if frame.sequence != nextSeq { return Some(UnexpectedSequence); }
      if frame.offset != offset { return Some(UnexpectedOffset); }
      var data := frame.data;
      if frame.encryption.Some? {
        var plain := DecryptChunk(options.encryption, frame, frame.encryption.value);
        if plain.Err? { return Some(plain.error); }
        data := plain.value;
      } else if options.requireEncryption || !options.allowPlaintext {
        return Some(EncryptionRequired);
      }
      var n := Taken(io, data);
      written := written + data[..n];
      if WriteFails(io) || n != |data| { return Some(TransferFailed); }
      hash := hash + data;
      offset := WrapInt64(offset + |data|);
      nextSeq := WrapUint64(nextSeq + 1);
      return None;
    }

    method AcceptManifest(frame: Frame) returns (m: Result<Manifest, P2PError>)
      modifies this
      ensures m == ManifestStep(Config(), old(State()), frame)
      ensures State() == (if m.Ok? then old(State()).(complete := true) else old(State()))
    {
      if frame.totalBytes != offset || frame.chunkCount != nextSeq || frame.sha256Hex != digest(hash) {
        return Err(ManifestMismatch);
      }
      complete := true;
      m := Ok(Manifest(frame.transferID, frame.totalBytes, frame.chunkCount, frame.sha256Hex));
    }

    // ResumeManifest: the resume point a receiver reports.
    method ResumePointFor(totalBytes: int64) returns (r: ResumeManifest)
      ensures r == ResumeAt(Config(), State(), totalBytes)
    {
      r := ResumeManifest(transferID, nextSeq, offset, totalBytes, digest(hash));
    }
  }
}
