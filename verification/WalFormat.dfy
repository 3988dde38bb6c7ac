/**
 The WAL record codec (crates/storage/src/wal_format.rs): FNV-1a, `encode_record`,
 `decode_record`, and what one damaged byte or a zeroed region decodes to.
 */
module WalFormat {
  import opened Bytes

  const FNV_BASIS: nat := 0xcbf2_9ce4_8422_2325
  const FNV_PRIME: nat := 0x0000_0100_0000_01b3
  const FNV_INVERSE: nat := 0xce96_5057_aff6_957b  // of the prime, modulo 2^64

  // ---- FNV-1a ----

  /** Bitwise exclusive or on unbounded naturals. */
  function Xor(a: nat, b: nat): nat {
    if a == 0 && b == 0 then 0 else (if a % 2 == b % 2 then 0 else 1) + 2 * Xor(a / 2, b / 2)
  }

  /** One byte of the hash: `h ^= x; h = h.wrapping_mul(prime)`. */
  function Mix(h: nat, x: byte): (r: nat)
    ensures r < U64
  {
    Xor(h, x) * FNV_PRIME % U64
  }

  function Hash(h: nat, b: bytes): nat {
    if b == [] then h else Mix(Hash(h, b[..|b| - 1]), b[|b| - 1])
  }

  function Checksum(b: bytes): nat { Hash(FNV_BASIS, b) }

  method ComputeChecksum(b: bytes) returns (h: nat)
    ensures h == Checksum(b) && h < U64
  {
    h := FNV_BASIS;
    for i := 0 to |b|
      invariant h == Checksum(b[..i]) && h < U64
    {
      assert b[..i + 1][..i] == b[..i];
      h := Mix(h, b[i]);
    }
    assert b[..|b|] == b;
  }

  lemma {:induction false} XorCancels(a: nat, b: nat)
    ensures Xor(Xor(a, b), b) == a
  {
    if a == 0 && b == 0 {
    } else {
      XorCancels(a / 2, b / 2);
      var x := Xor(a, b);
      assert x / 2 == Xor(a / 2, b / 2) && x % 2 == (if a % 2 == b % 2 then 0 else 1);
    }
  }

  lemma {:induction false} XorCommutes(a: nat, b: nat)
    ensures Xor(a, b) == Xor(b, a)
  {
    if a == 0 && b == 0 {
    } else {
      XorCommutes(a / 2, b / 2);
    }
  }

  function Pow2(k: nat): nat { if k == 0 then 1 else 2 * Pow2(k - 1) }

  lemma {:induction false} Pow2Bytes(k: nat)
    ensures Pow2(8 * k) == Pow256(k)
  {
    if k > 0 {
      Pow2Bytes(k - 1);
      assert Pow2(8 * k) == 256 * Pow2(8 * k - 8) by {
        assert Pow2(8 * k) == 4 * Pow2(8 * k - 2);
        assert Pow2(8 * k - 2) == 4 * Pow2(8 * k - 4);
        assert Pow2(8 * k - 4) == 4 * Pow2(8 * k - 6);
        assert Pow2(8 * k - 6) == 4 * Pow2(8 * k - 8);
      }
    }
  }

  lemma {:induction false} XorBound(a: nat, b: nat, k: nat)
    requires a < Pow2(k) && b < Pow2(k)
    ensures Xor(a, b) < Pow2(k)
  {
    if k > 0 {
      XorBound(a / 2, b / 2, k - 1);
    }
  }

  lemma Reduce(x: int, h: nat, t: int)
    requires h < U64 && x == h + U64 * t
    ensures x % U64 == h
  {
  }

  /** Multiplying by the FNV prime is undone by multiplying by its inverse. */
  lemma PrimeInverse(h: nat)
    requires h < U64
    ensures (h * FNV_PRIME % U64) * FNV_INVERSE % U64 == h
  {
    // 0x100_0000_01b3 * 0xce96_5057_aff6_957b == 1 + 0xce9650590f * 2^64, so every step below is linear in h and k
    var k, r: int := h * FNV_PRIME / U64, h * FNV_PRIME % U64;
    assert r == h * FNV_PRIME - k * U64;
    assert r * FNV_INVERSE == h + U64 * (h * 0xce9650590f - k * FNV_INVERSE);
    Reduce(r * FNV_INVERSE, h, h * 0xce9650590f - k * FNV_INVERSE);
  }

  /** For a fixed byte, one hash step is injective in the state; for a fixed state, in the byte. */
  lemma MixInjective(h1: nat, x1: byte, h2: nat, x2: byte)
    requires h1 < U64 && h2 < U64
    requires (h1 == h2 && x1 != x2) || (h1 != h2 && x1 == x2)
    ensures Mix(h1, x1) != Mix(h2, x2)
  {
    Pow2Bytes(8);
    assert Pow256(8) == U64;
    XorBound(h1, x1, 64);
    XorBound(h2, x2, 64);
    PrimeInverse(Xor(h1, x1));
    PrimeInverse(Xor(h2, x2));
    if Xor(h1, x1) == Xor(h2, x2) {
      XorCancels(h1, x1); XorCancels(h2, x2);
      XorCommutes(h1, x1); XorCommutes(h2, x2);
      XorCancels(x1, h1); XorCancels(x2, h2);
      assert false;
    }
  }

  lemma {:induction false} HashSplit(h: nat, a: bytes, b: bytes)
    ensures Hash(h, a + b) == Hash(Hash(h, a), b)
  {
    if b == [] {
      assert a + b == a;
    } else {
      HashSplit(h, a, b[..|b| - 1]);
      assert (a + b)[..|a + b| - 1] == a + b[..|b| - 1];
    }
  }

  lemma {:induction false} HashInjective(h1: nat, h2: nat, b: bytes)
    requires h1 < U64 && h2 < U64 && h1 != h2
    ensures Hash(h1, b) < U64 && Hash(h2, b) < U64 && Hash(h1, b) != Hash(h2, b)
  {
    if b == [] {
    } else {
      HashInjective(h1, h2, b[..|b| - 1]);
      MixInjective(Hash(h1, b[..|b| - 1]), b[|b| - 1], Hash(h2, b[..|b| - 1]), b[|b| - 1]);
    }
  }

  lemma {:induction false} HashBound(h: nat, b: bytes)
    requires h < U64
    ensures Hash(h, b) < U64
  {
  }

  /** FNV-1a tells apart any two inputs that differ in exactly one byte, whatever their length. */
  lemma ChecksumSeesOneByte(b: bytes, i: nat, x: byte)
    requires i < |b| && b[i] != x
    ensures Checksum(b[i := x]) != Checksum(b)
  {
    var c := b[i := x];
    var pre, post := b[..i], b[i + 1..];
    assert b == (pre + [b[i]]) + post && c == (pre + [x]) + post;
    HashSplit(FNV_BASIS, pre + [b[i]], post);
    HashSplit(FNV_BASIS, pre + [x], post);
    HashBound(FNV_BASIS, pre);
    assert (pre + [x])[..i] == pre && (pre + [b[i]])[..i] == pre;
    MixInjective(Hash(FNV_BASIS, pre), b[i], Hash(FNV_BASIS, pre), x);
    HashInjective(Hash(FNV_BASIS, pre + [b[i]]), Hash(FNV_BASIS, pre + [x]), post);
  }

  // ---- Records ----

  datatype Rec = Rec(lsn: nat, body: bytes)

  /** A record as it fits the format: a 32-bit length and a 64-bit LSN. */
  predicate Fits(r: Rec) { r.lsn < U64 && 8 + |r.body| < U32 }

  function Payload(r: Rec): bytes { LE(r.lsn, 8) + r.body }

  function Encode(r: Rec): (b: bytes)
    ensures |b| == 20 + |r.body|
  {
    LE(8 + |r.body|, 4) + Payload(r) + LE(Checksum(Payload(r)), 8)
  }

  /** `encode_record` appends to the batch's redo buffer. */
  method EncodeRecord(out: bytes, lsn: nat, body: bytes) returns (out': bytes)
    ensures out' == out + Encode(Rec(lsn, body))
  {
    var bodyLen := 8 + |body|;
    var head, stamp := LE(bodyLen, 4), LE(lsn, 8);
    var bodyStart := |out| + 4;
    var payload := stamp + body;
    out' := out + head + payload;
    assert out'[bodyStart..] == payload by { DropPrefix(out + head, payload); }
    var cs := ComputeChecksum(out'[bodyStart..]);
    assert Encode(Rec(lsn, body)) == head + payload + LE(cs, 8);
    assert out + head + payload + LE(cs, 8) == out + (head + payload + LE(cs, 8)) by {
      Assoc(out, head, payload);
      Assoc(out, head + payload, LE(cs, 8));
    }
    out' := out' + LE(cs, 8);
  }

  /** `Torn` is the source's `None`; `Panics` is its out-of-range slice on a body shorter than an LSN. */
  datatype Decoded = Torn | Panics | Record(rec: Rec, consumed: nat)

  function Decode(b: bytes): (d: Decoded)
    ensures d.Record? ==> 12 <= d.consumed <= |b|
  {
    if |b| < 4 then Torn else
    var end := 4 + UnLE(b[0..4]);
    if end + 8 > |b| then Torn else
    var body := b[4..end];
    if Checksum(body) != UnLE(b[end..end + 8]) then Torn else
    if |body| < 8 then Panics else
    Record(Rec(UnLE(body[0..8]), body[8..]), end + 8)
  }

  /** The three fields of an encoded record that is followed by anything at all. */
  lemma EncodedFields(r: Rec, tail: bytes)
    requires Fits(r)
    ensures var b := Encode(r) + tail;
            var end := 12 + |r.body|;
            && UnLE(b[0..4]) == 8 + |r.body|
            && b[4..end] == Payload(r)
            && b[end..end + 8] == LE(Checksum(Payload(r)), 8)
            && UnLE(b[end..end + 8]) == Checksum(Payload(r))
  {
    var b := Encode(r) + tail;
    ReadBack32(8 + |r.body|);
    HashBound(FNV_BASIS, Payload(r));
    ReadBack64(Checksum(Payload(r)));
    Slices(LE(8 + |r.body|, 4), Payload(r), LE(Checksum(Payload(r)), 8), tail);
  }

  /** The record by position: length, LSN, body, and the checksum of LSN and body, not of the length. */
  lemma RecordLayout(r: Rec)
    ensures var b, end := Encode(r), 12 + |r.body|;
            && b[..4] == LE(8 + |r.body|, 4) && b[4..12] == LE(r.lsn, 8) && b[12..end] == r.body
            && b[end..] == LE(Checksum(b[4..end]), 8)
  {
    hide LE, Checksum;
    var b, end := Encode(r), 12 + |r.body|;
    Slices(LE(8 + |r.body|, 4), Payload(r), LE(Checksum(Payload(r)), 8), []);
    assert b + [] == b;
    assert b[4..end] == Payload(r);
    assert b[4..12] == b[4..end][..8] && b[12..end] == b[4..end][8..];
  }

  lemma DecodeEncode(r: Rec, tail: bytes)
    requires Fits(r)
    ensures Decode(Encode(r) + tail) == Record(r, |Encode(r)|)
  {
    EncodedFields(r, tail);
    ReadBack64(r.lsn);
    assert Payload(r)[0..8] == LE(r.lsn, 8) && Payload(r)[8..] == r.body;
  }

  /** A record cut anywhere short of its end is torn: the length field alone shows it. */
  lemma CutRecordTorn(r: Rec, cut: nat)
    requires Fits(r) && cut < |Encode(r)|
    ensures Decode(Encode(r)[..cut]) == Torn
  {
    if cut >= 4 {
      EncodedFields(r, []);
      assert Encode(r) + [] == Encode(r);
      assert Encode(r)[..cut][0..4] == Encode(r)[0..4];
    }
  }

  lemma BodyDamageTorn(r: Rec, i: nat, x: byte, tail: bytes)
    requires Fits(r) && 4 <= i < 12 + |r.body| && Encode(r)[i] != x
    ensures Decode(Encode(r)[i := x] + tail) == Torn
  {
    EncodedFields(r, tail);
    var good, bad := Encode(r) + tail, Encode(r)[i := x] + tail;
    var end := 12 + |r.body|;
    assert bad[0..4] == good[0..4];
    assert bad[4..end] == Payload(r)[i - 4 := x];
    ChecksumSeesOneByte(Payload(r), i - 4, x);
    assert bad[end..end + 8] == good[end..end + 8];
  }

  lemma ChecksumDamageTorn(r: Rec, i: nat, x: byte, tail: bytes)
    requires Fits(r) && 12 + |r.body| <= i < |Encode(r)| && Encode(r)[i] != x
    ensures Decode(Encode(r)[i := x] + tail) == Torn
  {
    hide Encode, Payload, Checksum, UnLE;
    EncodedFields(r, tail);
    var good, bad := Encode(r) + tail, Encode(r)[i := x] + tail;
    var end := 12 + |r.body|;
    assert bad[0..4] == good[0..4];
    assert bad[4..end] == good[4..end];
    assert bad[end..end + 8][i - end] == x && good[end..end + 8][i - end] != x;
    ReadInjective(bad[end..end + 8], good[end..end + 8]);
  }

  /** Damage to any one byte of the body or of the stored checksum is always detected. */
  lemma OneByteDamageTorn(r: Rec, i: nat, x: byte, tail: bytes)
    requires Fits(r) && 4 <= i < |Encode(r)| && Encode(r)[i] != x
    ensures Decode(Encode(r)[i := x] + tail) == Torn
  {
    if i < 12 + |r.body| {
      BodyDamageTorn(r, i, x, tail);
    } else {
      ChecksumDamageTorn(r, i, x, tail);
    }
  }

  /** A hole of zero bytes, at least twelve long or running to the end of the data, never decodes. */
  lemma ZeroHoleTorn(n: nat, rest: bytes)
    requires n >= 12 || rest == []
    ensures Decode(Zeros(n) + rest) == Torn
  {
    var b := Zeros(n) + rest;
    if n >= 4 {
      assert b[0..4] == Zeros(4);
      ReadZeros(4);
      if |b| >= 12 {
        assert b[4..12] == Zeros(8);
        ReadZeros(8);
        assert b[4..4] == [];
      }
    }
  }

  /** `decode_record` panics exactly on a checksummed body too short to hold an LSN. */
  lemma PanicsExactly(b: bytes)
    ensures Decode(b) == Panics <==>
            && |b| >= 4
            && UnLE(b[0..4]) < 8
            && UnLE(b[0..4]) + 12 <= |b|
            && UnLE(b[4 + UnLE(b[0..4])..12 + UnLE(b[0..4])]) == Checksum(b[4..4 + UnLE(b[0..4])])
  {
  }

  /** No length, no body, and the checksum of nothing. */
  lemma PanicWitness()
    ensures Decode([0, 0, 0, 0, 0x25, 0x23, 0x22, 0x84, 0xe4, 0x9c, 0xf2, 0xcb]) == Panics
  {
    hide UnLE, Xor, Mix;
    var b: bytes := [0, 0, 0, 0, 0x25, 0x23, 0x22, 0x84, 0xe4, 0x9c, 0xf2, 0xcb];
    assert b[0..4] == Zeros(4) && b[4..4] == [];
    ReadZeros(4);
    BasisBytes();
    assert b[4..12] == [0x25, 0x23, 0x22, 0x84, 0xe4, 0x9c, 0xf2, 0xcb];
  }

  lemma BasisBytes()
    ensures UnLE([0x25, 0x23, 0x22, 0x84, 0xe4, 0x9c, 0xf2, 0xcb]) == 0xcbf2_9ce4_8422_2325
  {
  }

  /** The records that decode are exactly the encoded ones: a record is found if and only if its encoding is there. */
  lemma DecodeExactly(b: bytes, r: Rec, n: nat)
    ensures Decode(b) == Record(r, n) <==> Fits(r) && n == |Encode(r)| && n <= |b| && b[..n] == Encode(r)
  {
    if Decode(b) == Record(r, n) { DecodedIsEncoded(b); }
    if Fits(r) && n == |Encode(r)| && n <= |b| && b[..n] == Encode(r) {
      assert b == Encode(r) + b[n..];
      DecodeEncode(r, b[n..]);
    }
  }

  lemma DecodedIsEncoded(b: bytes)
    requires Decode(b).Record?
    ensures var d := Decode(b); Fits(d.rec) && d.consumed == |Encode(d.rec)| && b[..d.consumed] == Encode(d.rec)
  {
    hide Checksum, LE, UnLE;
    var end, r, n := 4 + UnLE(b[0..4]), Decode(b).rec, Decode(b).consumed;
    var body := b[4..end];
    FieldRange(b[0..4], body[0..8]);
    WriteBack(b[0..4]);
    WriteBack(body[0..8]);
    WriteBack(b[end..end + 8]);
    assert body == body[0..8] + body[8..];
    assert Payload(r) == body;
    assert b[..n] == b[0..4] + body + b[end..end + 8];
  }

  lemma FieldRange(a: bytes, b: bytes)
    requires |a| == 4 && |b| == 8
    ensures UnLE(a) < U32 && UnLE(b) < U64
  {
    hide UnLE;
    ReadBelow(a);
    ReadBelow(b);
    assert Pow256(4) == U32 && Pow256(8) == U64;
  }

  // ---- Which function the checksum is ----

  function Doubled(q: nat, k: nat): nat { if k == 0 then q else 2 * Doubled(q, k - 1) }

  lemma {:induction false} XorBits(q: nat, lo: nat, x: nat, k: nat)
    requires lo < Pow2(k) && x < Pow2(k)
    ensures Xor(Doubled(q, k) + lo, x) == Doubled(q, k) + Xor(lo, x)
  {
    if k == 0 {
      XorZero(q);
    } else {
      XorBits(q, lo / 2, x / 2, k - 1);
      XorStep(Doubled(q, k - 1), lo, x);
    }
  }

  lemma XorStep(p: nat, lo: nat, x: nat)
    requires Xor(p + lo / 2, x / 2) == p + Xor(lo / 2, x / 2)
    ensures Xor(2 * p + lo, x) == 2 * p + Xor(lo, x)
  {
    var a := 2 * p + lo;
    assert a / 2 == p + lo / 2 && a % 2 == lo % 2;
    XorHalf(a, x);
    XorHalf(lo, x);
  }

  lemma XorHalf(a: nat, b: nat)
    ensures Xor(a, b) == (if a % 2 == b % 2 then 0 else 1) + 2 * Xor(a / 2, b / 2)
  {
  }

  lemma {:induction false} XorZero(q: nat)
    ensures Xor(q, 0) == q
  {
    if q > 0 { XorZero(q / 2); }
  }

  /** Exclusive or with one byte changes the lowest byte only. */
  lemma XorLow(q: nat, lo: byte, x: byte)
    ensures Xor(256 * q + lo, x) == 256 * q + Xor(lo, x)
  {
    hide Xor;
    assert Doubled(q, 8) == 256 * q && Pow2(8) == 256 by { EightBits(q); }
    XorBits(q, lo, x, 8);
  }

  lemma EightBits(q: nat)
    ensures Doubled(q, 8) == 256 * q && Pow2(8) == 256
  {
    assert Doubled(q, 0) == q;
    assert Doubled(q, 1) == 2 * q;
    assert Doubled(q, 2) == 2 * Doubled(q, 1);
    assert Doubled(q, 4) == 4 * Doubled(q, 2);
    assert Doubled(q, 6) == 4 * Doubled(q, 4);
    assert Doubled(q, 8) == 4 * Doubled(q, 6);
    assert Pow2(8) == 16 * Pow2(4);
  }

  /** The published offset basis and one-byte vector of 64-bit FNV-1a. */
  lemma ChecksumIsFnv1a()
    ensures Checksum([]) == 0xcbf2_9ce4_8422_2325
    ensures Checksum([97]) == 0xaf63_dc4c_8601_ec8c
  {
    hide Xor;
    assert [97][..0] == [];
    XorLow(0xcb_f29c_e484_2223, 0x25, 97);
    SmallXor();
  }

  lemma SmallXor()
    ensures Xor(0x25, 97) == 0x44
  {
    hide Xor;
    XorHalf(37, 97);
    XorHalf(18, 48);
    XorHalf(9, 24);
    XorHalf(4, 12);
    XorHalf(2, 6);
    XorHalf(1, 3);
    XorHalf(0, 1);
    XorZero(0);
  }
}
