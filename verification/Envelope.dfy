/**
 The encrypted envelope of databases and rules: nonce (24 bytes), checksum (4), then the sealed text
 with its tag (16). XChaCha20-Poly1305 is an AEAD in the sense of section 2.8 of RFC 8439, of which
 only the round trip and the length of the tag are used.
 */
module Envelope {
  import opened Wrappers

  type Bytes = seq<bv8>

  const NONCE: nat := 24
  const CRC: nat := 4
  const OVERHEAD: nat := 16

  datatype Aead = Aead(
    validKey: Bytes -> bool,
    seal: (Bytes, Bytes, Bytes, Bytes) -> Bytes,          // key, nonce, plaintext, associated data
    open: (Bytes, Bytes, Bytes, Bytes) -> Option<Bytes>)  // key, nonce, ciphertext, associated data
  {
    ghost predicate Lawful() {
      && (forall k, n, p, a :: open(k, n, seal(k, n, p, a), a) == Some(p))
      && (forall k, n, p, a :: |seal(k, n, p, a)| == |p| + OVERHEAD)
      && (forall k, n, c, a :: open(k, n, c, a).Some? ==> |c| >= OVERHEAD && |open(k, n, c, a).value| == |c| - OVERHEAD)
    }
  }

  function Zeros(n: nat): (z: Bytes)
    ensures |z| == n
  {
    seq(n, i => 0)
  }

  /** The laws can be met. */
  lemma LawfulAeadExists() returns (a: Aead)
    ensures a.Lawful()
  {
    a := Aead(k => true, (k, n, p: Bytes, d) => p + Zeros(OVERHEAD),
              (k, n, c: Bytes, d) => if |c| >= OVERHEAD then Some(c[..|c| - OVERHEAD]) else None);
    forall k, n, p, d ensures a.open(k, n, a.seal(k, n, p, d), d) == Some(p) {
      assert (p + Zeros(OVERHEAD))[..|p|] == p;
    }
  }

  /** The checksum's four bytes, least significant first. */
  function LittleEndian(x: bv32): (r: Bytes)
    ensures |r| == CRC
  {
    [(x & 0xFF) as bv8, ((x >> 8) & 0xFF) as bv8, ((x >> 16) & 0xFF) as bv8, ((x >> 24) & 0xFF) as bv8]
  }

  function Checksum(crc: Bytes -> bv32, pt: Bytes): (r: Bytes)
    ensures |r| == CRC
  {
    LittleEndian(crc(pt))
  }

  /** `copy(dst[off:], src)`: as much of the source as fits. */
  method Copy(dst: array<bv8>, off: nat, src: Bytes)
    requires off <= dst.Length
    modifies dst
    ensures var n := if |src| <= dst.Length - off then |src| else dst.Length - off;
            dst[..off] == old(dst[..off]) && dst[off..off + n] == src[..n] && dst[off + n..] == old(dst[off + n..])
  {
    var n := if |src| <= dst.Length - off then |src| else dst.Length - off;
    for i := 0 to n
      invariant dst[..off] == old(dst[..off])
      invariant dst[off..off + i] == src[..i]
      invariant dst[off + i..] == old(dst[off + i..])
    {
      dst[off + i] := src[i];
      assert dst[off..off + i + 1] == dst[off..off + i] + [src[i]];
      assert dst[off + i + 1..] == old(dst[off + i + 1..]);
    }
  }

  datatype Result = Success(bytes: Bytes) | NoNonce | BadKey | OpenFailed | ChecksumMismatch | Panic

  /** The three regions of an envelope, which tile it. */
  function Layout(nonce: Bytes, check: Bytes, sealed: Bytes): Bytes {
    nonce + check + sealed
  }

  /** `nonce` is what the random source delivers, if it does. */
  method XChacha20Encrypt(aead: Aead, crc: Bytes -> bv32, key: Bytes, pt: Bytes, nonce: Option<Bytes>)
    returns (r: Result)
    requires aead.Lawful() && (nonce.Some? ==> |nonce.value| == NONCE)
    ensures nonce.None? ==> r.NoNonce?
    ensures nonce.Some? && !aead.validKey(key) ==> r.BadKey?
    ensures nonce.Some? && aead.validKey(key) ==>
              && r == Success(Layout(nonce.value, Checksum(crc, pt),
                                     aead.seal(key, nonce.value, pt, Checksum(crc, pt))))
              && |r.bytes| == |pt| + NONCE + CRC + OVERHEAD
  {
    if nonce.None? {
      return NoNonce;
    }
    var iv := nonce.value;
    if !aead.validKey(key) {
      return BadKey;
    }
    var assoData := Checksum(crc, pt);
    var ct := new bv8[|pt| + NONCE + OVERHEAD + CRC](i => 0);
    Copy(ct, 0, iv);
    assert ct[..NONCE] == ct[0..NONCE] == iv;
    Copy(ct, |iv|, assoData);
    assert ct[..NONCE + CRC] == ct[..NONCE] + ct[NONCE..NONCE + CRC];
    var ctFinal := aead.seal(key, iv, pt, assoData);
    Copy(ct, NONCE + CRC, ctFinal);
    assert ct[NONCE + CRC..ct.Length] == ctFinal;
    assert ct[..] == ct[..NONCE + CRC] + ct[NONCE + CRC..ct.Length];
    return Success(ct[..]);
  }

  /** The decrypted text of an envelope that is long enough. */
  function Opened(aead: Aead, crc: Bytes -> bv32, key: Bytes, mixed: Bytes): Result
    requires |mixed| >= NONCE + CRC
  {
    var nonce, check, sealed := mixed[..NONCE], mixed[NONCE..NONCE + CRC], mixed[NONCE + CRC..];
    match aead.open(key, nonce, sealed, check)
    case None => OpenFailed
    case Some(pt) => if Checksum(crc, pt) == check then Success(pt) else ChecksumMismatch
  }

  /**
   `mixed` is a slice: `buffer` is its capacity and `n` its length. Slicing up to a constant is
   checked against the capacity, while an open-ended slice and the allocation depend on the length.
   */
  method XChacha20Decrypt(aead: Aead, crc: Bytes -> bv32, key: Bytes, buffer: array<bv8>, n: nat) returns (r: Result)
    requires aead.Lawful() && n <= buffer.Length
    ensures r.Panic? <==> buffer.Length < NONCE + CRC || (aead.validKey(key) && n < NONCE + CRC + OVERHEAD)
    ensures r.BadKey? <==> buffer.Length >= NONCE + CRC && !aead.validKey(key)
    ensures !r.Panic? && !r.BadKey? ==> r == Opened(aead, crc, key, buffer[..n])
  {
    if buffer.Length < NONCE || buffer.Length < NONCE + CRC {
      return Panic;
    }
    var iv := buffer[..NONCE];
    var assoData := buffer[NONCE..NONCE + CRC];
    if !aead.validKey(key) {
      return BadKey;
    }
    if n < NONCE + CRC + OVERHEAD {
      return Panic;
    }
    var pt := new bv8[n - NONCE - CRC - OVERHEAD](i => 0);
    assert buffer[..n][..NONCE] == iv && buffer[..n][NONCE..NONCE + CRC] == assoData;
    assert buffer[..n][NONCE + CRC..] == buffer[NONCE + CRC..n];
    var ptFinal := aead.open(key, iv, buffer[NONCE + CRC..n], assoData);
    if ptFinal.None? {
      return OpenFailed;
    }
    Copy(pt, 0, ptFinal.value);
    assert pt[..] == pt[0..pt.Length] == ptFinal.value;
    if Checksum(crc, pt[..]) != assoData {
      return ChecksumMismatch;
    }
    return Success(pt[..]);
  }

  /** Decrypting an envelope gives back its text, whatever the text, empty included. */
  lemma DecryptAfterEncrypt(aead: Aead, crc: Bytes -> bv32, key: Bytes, pt: Bytes, nonce: Bytes)
    requires aead.Lawful() && |nonce| == NONCE
    ensures var mixed := Layout(nonce, Checksum(crc, pt), aead.seal(key, nonce, pt, Checksum(crc, pt)));
            |mixed| == |pt| + 44 && Opened(aead, crc, key, mixed) == Success(pt)
  {
    var check := Checksum(crc, pt);
    var sealed := aead.seal(key, nonce, pt, check);
    var mixed := Layout(nonce, check, sealed);
    assert mixed[..NONCE] == nonce && mixed[NONCE..NONCE + CRC] == check && mixed[NONCE + CRC..] == sealed;
  }

  /** What decryption accepts carries the checksum of the text it returns, and the length fits. */
  lemma AcceptedEnvelopes(aead: Aead, crc: Bytes -> bv32, key: Bytes, mixed: Bytes)
    requires aead.Lawful() && |mixed| >= NONCE + CRC && Opened(aead, crc, key, mixed).Success?
    ensures var pt := Opened(aead, crc, key, mixed).bytes;
            mixed[NONCE..NONCE + CRC] == Checksum(crc, pt) && |mixed| == |pt| + NONCE + CRC + OVERHEAD
  {
  }

  /** Encrypting and then decrypting the result as it stands in memory. */
  method RoundTrip(aead: Aead, crc: Bytes -> bv32, key: Bytes, pt: Bytes, nonce: Bytes) returns (back: Result)
    requires aead.Lawful() && |nonce| == NONCE && aead.validKey(key)
    ensures back == Success(pt)
  {
    var sealed := XChacha20Encrypt(aead, crc, key, pt, Some(nonce));
    var buffer := new bv8[|sealed.bytes|](i requires 0 <= i < |sealed.bytes| => sealed.bytes[i]);
    DecryptAfterEncrypt(aead, crc, key, pt, nonce);
    assert buffer[..buffer.Length] == sealed.bytes;
    back := XChacha20Decrypt(aead, crc, key, buffer, buffer.Length);
  }
}
