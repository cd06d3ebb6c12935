/** Byte strings: fixed-width numbers and the lexicographic order of keys. */
module Bytes {
  import opened Types

  type Bytes = seq<u8>

  function Pow256(width: nat): nat {
    if width == 0 then 1 else 256 * Pow256(width - 1)
  }

  lemma WidthLimits()
    ensures Pow256(1) == 0x100 && Pow256(4) == U32_LIMIT && Pow256(8) == U64_LIMIT && Pow256(32) == ID_LIMIT
  {
    assert Pow256(8) == U64_LIMIT by { assert Pow256(4) == U32_LIMIT; }
    Pow256Sum(8, 8);
    Pow256Sum(16, 16);
  }

  lemma {:induction false} Pow256Sum(a: nat, b: nat)
    ensures Pow256(a + b) == Pow256(a) * Pow256(b)
  {
    if a > 0 {
      Pow256Sum(a - 1, b);
      assert 256 * (Pow256(a - 1) * Pow256(b)) == 256 * Pow256(a - 1) * Pow256(b);
    }
  }

  // ── Little endian: bincode's fixed-width integers ──

  function LittleEndian(n: nat, width: nat): (b: Bytes)
    ensures |b| == width
  {
    if width == 0 then [] else [n % 256] + LittleEndian(n / 256, width - 1)
  }

  function FromLittleEndian(b: Bytes): (n: nat)
    ensures n < Pow256(|b|)
  {
    if b == [] then 0 else b[0] + 256 * FromLittleEndian(b[1..])
  }

  lemma {:induction false} LittleEndianRoundTrip(n: nat, width: nat)
    requires n < Pow256(width)
    ensures FromLittleEndian(LittleEndian(n, width)) == n
  {
    if width > 0 {
      LittleEndianRoundTrip(n / 256, width - 1);
    }
  }

  // ── Big endian: identifiers, heights and nonces ──

  function BigEndian(n: nat, width: nat): (b: Bytes)
    ensures |b| == width
  {
    if width == 0 then [] else BigEndian(n / 256, width - 1) + [n % 256]
  }

  function FromBigEndian(b: Bytes): (n: nat)
    ensures n < Pow256(|b|)
  {
    if b == [] then 0 else FromBigEndian(b[..|b| - 1]) * 256 + b[|b| - 1]
  }

  lemma {:induction false} BigEndianRoundTrip(n: nat, width: nat)
    requires n < Pow256(width)
    ensures FromBigEndian(BigEndian(n, width)) == n
  {
    if width > 0 {
      BigEndianRoundTrip(n / 256, width - 1);
      assert BigEndian(n, width)[..width - 1] == BigEndian(n / 256, width - 1);
    }
  }

  // ── Lexicographic order ──

  predicate Less(a: Bytes, b: Bytes) {
    b != [] && (a == [] || a[0] < b[0] || (a[0] == b[0] && Less(a[1..], b[1..])))
  }

  lemma {:induction false} LessTransitive(a: Bytes, b: Bytes, c: Bytes)
    requires Less(a, b) && Less(b, c)
    ensures Less(a, c)
  {
    if a != [] && a[0] == b[0] == c[0] {
      LessTransitive(a[1..], b[1..], c[1..]);
    }
  }

  lemma {:induction false} LessTrichotomy(a: Bytes, b: Bytes)
    ensures Less(a, b) || a == b || Less(b, a)
    ensures !(Less(a, b) && Less(b, a)) && !Less(a, a)
  {
    if a != [] {
      LessTrichotomy(a[1..], a[1..]);
      if b != [] {
        LessTrichotomy(a[1..], b[1..]);
        if a[0] == b[0] && a[1..] == b[1..] {
          assert a == [a[0]] + a[1..] && b == [b[0]] + b[1..];
        }
      }
    }
  }

  lemma {:induction false} LessAppend(a: Bytes, b: Bytes, x: u8, y: u8)
    requires |a| == |b|
    ensures Less(a + [x], b + [y]) <==> Less(a, b) || (a == b && x < y)
  {
    if a == [] {
      assert (a + [x])[1..] == [] && (b + [y])[1..] == [];
    } else {
      assert (a + [x])[1..] == a[1..] + [x] && (b + [y])[1..] == b[1..] + [y];
      assert a == [a[0]] + a[1..] && b == [b[0]] + b[1..];
      LessAppend(a[1..], b[1..], x, y);
    }
  }

  lemma {:induction false} LessAfterPrefix(p: Bytes, a: Bytes, b: Bytes)
    ensures Less(p + a, p + b) <==> Less(a, b)
  {
    if p == [] {
      assert p + a == a && p + b == b;
    } else {
      assert (p + a)[1..] == p[1..] + a && (p + b)[1..] == p[1..] + b;
      LessAfterPrefix(p[1..], a, b);
    }
  }

  lemma DigitOrder(m: nat, n: nat)
    ensures m < n <==> m / 256 < n / 256 || (m / 256 == n / 256 && m % 256 < n % 256)
    ensures m == n <==> m / 256 == n / 256 && m % 256 == n % 256
  {
  }

  /** Sorting 32-byte identifiers byte by byte sorts them as numbers. */
  lemma {:induction false} BigEndianOrder(m: nat, n: nat, width: nat)
    requires m < Pow256(width) && n < Pow256(width)
    ensures Less(BigEndian(m, width), BigEndian(n, width)) <==> m < n
  {
    if width > 0 {
      DigitOrder(m, n);
      hide Less;
      BigEndianOrder(m / 256, n / 256, width - 1);
      LessAppend(BigEndian(m / 256, width - 1), BigEndian(n / 256, width - 1), m % 256, n % 256);
      BigEndianRoundTrip(m / 256, width - 1);
      BigEndianRoundTrip(n / 256, width - 1);
    }
  }
}
