// Wire frames of the chunk protocol (internal/p2p/chunks.go). The JSON text of
// a frame is not modelled: a message is either unreadable or one frame record.
module Frames {
  import opened Wrappers
  import opened GoIntegers
  import opened ChunkCrypto

  const PROTOCOL_VERSION: int := 1
  const ENCRYPTION_ALGORITHM: string := "AES-256-GCM"

  datatype FrameType = Unset | Chunk | ManifestEnd | AckPoint | ResumePoint | Unknown(name: string)

  datatype P2PError =
    | MalformedJSON | UnsupportedProtocolVersion | FrameTypeRequired | UnsupportedFrameType
    | TransferIDRequired | ChunkDataRequired | NegativeOffset | NegativeNextOffset
    | NegativeTotalBytes | ResumePastTotalBytes | InvalidChunkCount | SHA256Required
    | UnexpectedTransferID | UnexpectedSequence | UnexpectedOffset | ManifestMismatch
    | ResumeDigestMismatch | TransferComplete | TransferFailed
    | EncryptionRequired | UnsupportedEncryptionAlgorithm | InvalidEncryptionMetadata | DecryptionFailed
    | UnsafePartialDestination | FileExists | FileMissing

  datatype EncryptionMetadata = EncryptionMetadata(algorithm: string, nonce: Bytes)

  datatype Frame = Frame(version: int, frameType: FrameType, transferID: string,
                         sequence: uint64, offset: int64, nextSequence: uint64, nextOffset: int64,
                         data: Bytes, encryption: Option<EncryptionMetadata>,
                         totalBytes: int64, chunkCount: uint64, sha256Hex: string)

  datatype Manifest = Manifest(transferID: string, totalBytes: int64, chunkCount: uint64, sha256Hex: string)

  datatype ResumeManifest = ResumeManifest(transferID: string, nextSequence: uint64, nextOffset: int64,
                                           totalBytes: int64, sha256Hex: string)

  // A message on the data channel.
  datatype Wire = Garbage | Json(frame: Frame)

  predicate IsHexDigit(c: char) { '0' <= c <= '9' || 'a' <= c <= 'f' || 'A' <= c <= 'F' }

  // hex.DecodeString succeeds and yields the 32 octets of a SHA-256 digest.
  predicate IsSHA256Hex(s: string) {
    |s| == 64 && forall i :: 0 <= i < |s| ==> IsHexDigit(s[i])
  }

  type Digest = s: string | IsSHA256Hex(s)
    witness seq(64, _ => '0')

  // The hex SHA-256 of a byte string. Nothing is assumed about it.
  type Hash = Bytes -> Digest

  // Two different byte strings with one digest.
  ghost predicate Collision(h: Hash, a: Bytes, b: Bytes) { a != b && h(a) == h(b) }

  function ValidateEncryption(m: EncryptionMetadata): (e: Option<P2PError>)
    ensures e.None? <==> m.algorithm == ENCRYPTION_ALGORITHM && |m.nonce| == GCM_NONCE_SIZE
  {
    if m.algorithm != ENCRYPTION_ALGORITHM then Some(UnsupportedEncryptionAlgorithm)
    else if |m.nonce| != GCM_NONCE_SIZE then Some(InvalidEncryptionMetadata)
    else None
  }

  function ValidateFrame(f: Frame): Option<P2PError> {
    if f.version != PROTOCOL_VERSION then Some(UnsupportedProtocolVersion)
    else if f.frameType.Unset? then Some(FrameTypeRequired)
    else if f.transferID == "" then Some(TransferIDRequired)
    else match f.frameType
      case Chunk =>
        if f.offset < 0 then Some(NegativeOffset)
        else if f.data == [] then Some(ChunkDataRequired)
        else if f.encryption.Some? then ValidateEncryption(f.encryption.value)
        else None
      case ManifestEnd =>
        if f.totalBytes < 0 then Some(NegativeTotalBytes)
        else if f.chunkCount == 0 && f.totalBytes > 0 then Some(InvalidChunkCount)
        else if !IsSHA256Hex(f.sha256Hex) then Some(SHA256Required)
        else None
      case AckPoint =>
        if f.nextOffset < 0 then Some(NegativeNextOffset) else None
      case ResumePoint =>
        if f.nextOffset < 0 then Some(NegativeNextOffset)
        else if f.totalBytes < 0 then Some(NegativeTotalBytes)
        else if f.nextOffset > f.totalBytes then Some(ResumePastTotalBytes)
        else if !IsSHA256Hex(f.sha256Hex) then Some(SHA256Required)
        else None
      case _ => Some(UnsupportedFrameType)
  }

  // What is well formed, and otherwise which fault is named: the first of these.
  lemma FaultsExactly(f: Frame)
    ensures var e := ValidateFrame(f);
      && (f.version != PROTOCOL_VERSION <==> e == Some(UnsupportedProtocolVersion))
      && (f.version == PROTOCOL_VERSION && f.frameType.Unset? <==> e == Some(FrameTypeRequired))
      && (f.version == PROTOCOL_VERSION && !f.frameType.Unset? && f.transferID == "" <==> e == Some(TransferIDRequired))
      && (e.None? ==> f.version == 1 && f.transferID != "" && (f.frameType.Chunk? || f.frameType.ManifestEnd? || f.frameType.AckPoint? || f.frameType.ResumePoint?))
      && (f.version == 1 && f.transferID != "" ==>
            && (f.frameType.Chunk? ==>
                  && (e.None? <==> f.offset >= 0 && f.data != [] && (f.encryption.Some? ==> ValidateEncryption(f.encryption.value).None?))
                  && (e == Some(NegativeOffset) <==> f.offset < 0) && (e == Some(ChunkDataRequired) <==> f.offset >= 0 && f.data == [])
                  && (f.encryption.Some? && f.offset >= 0 && f.data != [] ==> e == ValidateEncryption(f.encryption.value)))
            && (f.frameType.ManifestEnd? ==>
                  && (e == Some(NegativeTotalBytes) <==> f.totalBytes < 0)
                  && (e == Some(InvalidChunkCount) <==> f.totalBytes > 0 && f.chunkCount == 0)
                  && (e == Some(SHA256Required) <==> !(f.totalBytes < 0 || (f.totalBytes > 0 && f.chunkCount == 0)) && !IsSHA256Hex(f.sha256Hex))
                  && (e.None? <==> f.totalBytes >= 0 && (f.totalBytes > 0 ==> f.chunkCount > 0) && IsSHA256Hex(f.sha256Hex)))
            && (f.frameType.AckPoint? ==> e == if f.nextOffset < 0 then Some(NegativeNextOffset) else None)
            && (f.frameType.ResumePoint? ==>
                  && (e == Some(NegativeNextOffset) <==> f.nextOffset < 0)
                  && (e == Some(NegativeTotalBytes) <==> f.nextOffset >= 0 && f.totalBytes < 0)
                  && (e == Some(ResumePastTotalBytes) <==> 0 <= f.totalBytes < f.nextOffset)
                  && (e == Some(SHA256Required) <==> 0 <= f.nextOffset <= f.totalBytes && !IsSHA256Hex(f.sha256Hex))
                  && (e.None? <==> 0 <= f.nextOffset <= f.totalBytes && IsSHA256Hex(f.sha256Hex)))
            && (f.frameType.Unknown? ==> e == Some(UnsupportedFrameType)))
  {
  }

  // A digest in hexadecimal is sixty-four digits of either case.
  lemma HexDigestExactly(s: string)
    ensures IsSHA256Hex(s) <==> |s| == 64 && forall c :: c in s ==> c in "0123456789abcdefABCDEF"
  {
    forall c: char ensures IsHexDigit(c) <==> c in "0123456789abcdefABCDEF" {
      HexDigitExactly(c);
    }
    if |s| == 64 && forall c :: c in s ==> IsHexDigit(c) {
      assert forall i :: 0 <= i < |s| ==> s[i] in s;
    }
  }

  lemma HexDigitExactly(c: char)
    ensures IsHexDigit(c) <==> c in "0123456789abcdefABCDEF"
  {
    var digits := "0123456789abcdefABCDEF";
    if IsHexDigit(c) {
      var i := if c <= '9' then c as int - 48 else if c <= 'F' then c as int - 65 + 16 else c as int - 97 + 10;
      assert digits[i] == c;
    }
  }

  // Encryption metadata is of the one algorithm, with a nonce of twelve octets.
  lemma EncryptionExactly(m: EncryptionMetadata)
    ensures ValidateEncryption(m) == if m.algorithm != "AES-256-GCM" then Some(UnsupportedEncryptionAlgorithm)
                                     else if |m.nonce| != 12 then Some(InvalidEncryptionMetadata) else None
  {
  }

  function DecodeFrame(w: Wire): Result<Frame, P2PError> {
    match w
    case Garbage => Err(MalformedJSON)
    case Json(f) => var e := ValidateFrame(f); if e.Some? then Err(e.value) else Ok(f)
  }

  function EncodeFrame(f: Frame): Result<Wire, P2PError> {
    var g := if f.version == 0 then f.(version := PROTOCOL_VERSION) else f;
    var e := ValidateFrame(g);
    if e.Some? then Err(e.value) else Ok(Json(g))
  }

  function ChunkFrame(transferID: string, sequence: uint64, offset: int64, data: Bytes,
                      encryption: Option<EncryptionMetadata>): Frame {
    Frame(PROTOCOL_VERSION, Chunk, transferID, sequence, offset, 0, 0, data, encryption, 0, 0, "")
  }

  function ManifestFrame(m: Manifest): Frame {
    Frame(PROTOCOL_VERSION, ManifestEnd, m.transferID, 0, 0, 0, 0, [], None, m.totalBytes, m.chunkCount, m.sha256Hex)
  }

  // Whatever the encoder lets through, the decoder reads back unchanged
  // (a frame without a version is stamped with the protocol's) and takes
  // everything the decoder would.
  lemma EncodedFramesDecode(f: Frame)
    ensures EncodeFrame(f).Ok? ==> DecodeFrame(EncodeFrame(f).value) == Ok(if f.version == 0 then f.(version := PROTOCOL_VERSION) else f)
    ensures DecodeFrame(Json(f)).Ok? ==> EncodeFrame(f) == Ok(Json(f))
    ensures DecodeFrame(Json(f)) == if ValidateFrame(f).Some? then Err(ValidateFrame(f).value) else Ok(f)
    ensures DecodeFrame(Garbage) == Err(MalformedJSON)
    ensures EncodeFrame(f).Ok? <==> ValidateFrame(f).None? || (f.version == 0 && ValidateFrame(f.(version := 1)).None?)
  {
  }
}
