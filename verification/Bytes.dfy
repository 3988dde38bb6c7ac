/**
 Byte strings and the little-endian integers every on-disk and on-wire format is built from.
 `LE(n, k)` truncates to `k` bytes, as an `as u32` cast followed by `to_le_bytes` does.
 */
module Bytes {

  type byte = x: int | 0 <= x < 256
  type bytes = seq<byte>

  const U32 := 0x1_0000_0000
  const U64 := 0x1_0000_0000_0000_0000

  datatype Option<+T> = None | Some(value: T)

  function Joined<T>(parts: seq<seq<T>>): seq<T> {
    if parts == [] then [] else parts[0] + Joined(parts[1..])
  }

  function LE(n: nat, k: nat): (b: bytes)
    ensures |b| == k
    decreases k, n  // with n here, a literal k alone does not make the verifier unroll every digit
  {
    if k == 0 then [] else [n % 256] + LE(n / 256, k - 1)
  }

  /** Little-endian: byte `i` is the digit of weight 256 to the `i`. */
  lemma {:induction false} LEDigit(n: nat, k: nat, i: nat)
    requires i < k
    ensures Pow256(i) > 0 && LE(n, k)[i] == n / Pow256(i) % 256
  {
    if i > 0 {
      LEDigit(n / 256, k - 1, i - 1);
      DivDiv(n, Pow256(i - 1));
    }
  }

  lemma SmallLE(n: byte)
    ensures LE(n, 4) == [n, 0, 0, 0] && LE(n, 8) == [n, 0, 0, 0, 0, 0, 0, 0]
  {
    ZeroLE(3);
    ZeroLE(7);
    assert LE(n, 4) == [n] + Zeros(3) && LE(n, 8) == [n] + Zeros(7);
  }

  lemma {:induction false} ZeroLE(k: nat)
    ensures LE(0, k) == Zeros(k)
  {
    if k > 0 { ZeroLE(k - 1); }
  }

  lemma DivDiv(n: nat, m: nat)
    requires m > 0
    ensures n / 256 / m == n / (256 * m)
  {
    var q, r := n / 256 / m, n / 256 % m;
    assert n == 256 * (m * q + r) + n % 256;
    assert 256 * (m * q + r) == (256 * m) * q + 256 * r;
    QuotientIs(n, 256 * m, q, 256 * r + n % 256);
  }

  lemma QuotientIs(n: nat, m: nat, q: nat, r: nat)
    requires n == m * q + r && r < m
    ensures n / m == q
  {
    TimesAbove(m, n / m, q);
    TimesAbove(m, q, n / m);
  }

  lemma {:induction false} TimesAbove(m: nat, a: nat, b: nat)
    ensures a < b ==> m * a + m <= m * b
  {
    if a < b {
      assert m * b == m * (b - 1) + m;
      TimesAbove(m, a, b - 1);
    }
  }

  function UnLE(b: bytes): nat {
    if b == [] then 0 else b[0] + 256 * UnLE(b[1..])
  }

  function Pow256(k: nat): nat {
    if k == 0 then 1 else 256 * Pow256(k - 1)
  }

  function Zeros(n: nat): (b: bytes)
    ensures |b| == n && forall i :: 0 <= i < n ==> b[i] == 0
  {
    seq(n, _ => 0)
  }

  function Concat(parts: seq<bytes>): bytes {
    if parts == [] then [] else parts[0] + Concat(parts[1..])
  }

  lemma {:induction false} ReadBack(n: nat, k: nat)
    requires n < Pow256(k)
    ensures UnLE(LE(n, k)) == n
  {
    if k == 0 {
    } else {
      ReadBack(n / 256, k - 1);
      assert LE(n, k)[1..] == LE(n / 256, k - 1);
    }
  }

  lemma ReadBack32(n: nat)
    requires n < U32
    ensures UnLE(LE(n, 4)) == n
  {
    assert Pow256(4) == U32;
    ReadBack(n, 4);
  }

  lemma ReadBack64(n: nat)
    requires n < U64
    ensures UnLE(LE(n, 8)) == n
  {
    assert Pow256(8) == U64;
    ReadBack(n, 8);
  }

  lemma {:induction false} WriteBack(b: bytes)
    ensures LE(UnLE(b), |b|) == b
  {
    if b == [] {
    } else {
      var rest := UnLE(b[1..]);
      WriteBack(b[1..]);
      assert UnLE(b) == b[0] + 256 * rest;
      Digits(b[0], rest);
      assert b == [b[0]] + b[1..];
    }
  }

  lemma {:induction false} ReadBelow(b: bytes)
    ensures UnLE(b) < Pow256(|b|)
  {
    if b != [] { ReadBelow(b[1..]); }
  }

  lemma Digits(d: byte, n: nat)
    ensures (d + 256 * n) % 256 == d && (d + 256 * n) / 256 == n
  {
  }

  /** Different byte strings of one length read as different integers. */
  lemma ReadInjective(a: bytes, b: bytes)
    requires |a| == |b| && a != b
    ensures UnLE(a) != UnLE(b)
  {
    WriteBack(a);
    WriteBack(b);
  }

  lemma {:induction false} ReadZeros(n: nat)
    ensures UnLE(Zeros(n)) == 0
  {
    if n == 0 {
    } else {
      ReadZeros(n - 1);
      assert Zeros(n)[1..] == Zeros(n - 1);
    }
  }

  lemma Assoc<T>(a: seq<T>, b: seq<T>, c: seq<T>)
    ensures a + b + c == a + (b + c)
  {
  }

  lemma {:induction false} ConcatAppend(a: seq<bytes>, b: seq<bytes>)
    ensures Concat(a + b) == Concat(a) + Concat(b)
  {
    if a == [] {
      assert a + b == b;
    } else {
      ConcatAppend(a[1..], b);
      assert (a + b)[1..] == a[1..] + b && (a + b)[0] == a[0];
      Assoc(a[0], Concat(a[1..]), Concat(b));
    }
  }

  lemma DropPrefix<T>(a: seq<T>, b: seq<T>)
    ensures (a + b)[|a|..] == b && (a + b)[..|a|] == a
  {
  }

  /** The pieces of a four-part concatenation, by position. */
  lemma Slices(a: bytes, b: bytes, c: bytes, d: bytes)
    ensures var s := a + b + c + d;
            && s[0..|a|] == a
            && s[|a|..|a| + |b|] == b
            && s[|a| + |b|..|a| + |b| + |c|] == c
            && s[|a| + |b| + |c|..] == d
  {
  }
}
