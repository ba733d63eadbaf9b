// Chunk sealing (internal/p2p/crypto.go). AES-256-GCM is idealised as an AEAD
// in the sense of RFC 5116: sealing adds 16 octets, opening inverts sealing,
// and what opens was sealed.
module ChunkCrypto {
  import opened Wrappers
  import opened GoIntegers
  import opened Decimals

  newtype byte = x: int | 0 <= x < 256
  type Bytes = seq<byte>

  const GCM_NONCE_SIZE: nat := 12
  const GCM_TAG_SIZE: nat := 16

  type Nonce = n: Bytes | |n| == GCM_NONCE_SIZE witness [0, 0, 0, 0, 0, 0, 0, 0, 0, 0, 0, 0]

  // A cipher under one fixed transfer key, as its two operations on
  // (nonce, text, additional data).
  datatype Aead = Aead(seal: (Bytes, Bytes, string) -> Bytes,
                       open: (Bytes, Bytes, string) -> Option<Bytes>)
  {
    ghost predicate Correct() {
      forall n: Bytes, p: Bytes, aad: string ::
        && |seal(n, p, aad)| == |p| + GCM_TAG_SIZE
        && open(n, seal(n, p, aad), aad) == Some(p)
    }
  }

  // One call of EncryptChunk: where the chunk belongs, and both its texts.
  datatype SealedChunk = SealedChunk(transferID: string, sequence: uint64, offset: int64,
                                     nonce: Bytes, plaintext: Bytes, ciphertext: Bytes)

  // Unforgeability, for one ciphertext handed to DecryptChunk: if it opens
  // then some recorded seal produced it under the same additional data.
  ghost predicate Unforged(a: Aead, log: set<SealedChunk>, nonce: Bytes, ciphertext: Bytes, aad: string) {
    a.open(nonce, ciphertext, aad).Some? ==>
      exists r :: r in log && ChunkAAD(r.transferID, r.sequence, r.offset) == aad
                  && r.plaintext == a.open(nonce, ciphertext, aad).value
  }

  // The additional data of a chunk; 1 is the protocol version.
  function ChunkAAD(transferID: string, sequence: uint64, offset: int64): string {
    "postamat:p2p:v1:" + transferID + ":" + Decimal(sequence) + ":" + SignedDecimal(offset)
  }

  predicate NoColon(s: string) { forall i :: 0 <= i < |s| ==> s[i] != ':' }

  // What follows the last colon of a string is determined by the string.
  lemma LastColonSplits(a: string, d: string, b: string, e: string)
    requires a + ":" + d == b + ":" + e
    requires NoColon(d) && NoColon(e)
    ensures a == b && d == e
  {
    var s := a + ":" + d;
    var t := b + ":" + e;
    assert forall k :: |a| < k < |s| ==> s[k] == d[k - |a| - 1];
    assert forall k :: |b| < k < |t| ==> t[k] == e[k - |b| - 1];
    assert s[|a|] == ':' && t[|b|] == ':';
    assert a == s[..|a|] && b == t[..|b|];
    assert d == s[|a| + 1..] && e == t[|b| + 1..];
  }

  // The additional data names the transfer, the sequence and the offset
  // without ambiguity, even when a transfer id itself contains colons.
  lemma ChunkAADInjective(t1: string, s1: uint64, o1: int64, t2: string, s2: uint64, o2: int64)
    requires ChunkAAD(t1, s1, o1) == ChunkAAD(t2, s2, o2)
    ensures t1 == t2 && s1 == s2 && o1 == o2
  {
    var head := "postamat:p2p:v1:";
    var a := head + t1 + ":" + Decimal(s1);
    var b := head + t2 + ":" + Decimal(s2);
    LastColonSplits(a, SignedDecimal(o1), b, SignedDecimal(o2));
    SignedDecimalInjective(o1, o2);
    LastColonSplits(head + t1, Decimal(s1), head + t2, Decimal(s2));
    DecimalInjective(s1, s2);
    assert t1 == (head + t1)[|head|..] && t2 == (head + t2)[|head|..];
  }
}
