/** Byte-level helpers shared by the garbling engine and both detection schemes:
    bytes, 16-byte labels, 32-byte digests, big-endian integers and bit lengths. */
module Common {

  type byte = bv8

  datatype Option<+T> = None | Some(value: T)

  /** LABEL_LEN_BYTES of the garbling engine. */
  const LabelLen: nat := 16

  /** A wire label or garbled-table row: always LabelLen bytes. */
  type Label = s: seq<byte> | |s| == 16 witness seq(16, _ => 0 as byte)

  /** A SHA-256 digest. */
  type Digest = s: seq<byte> | |s| == 32 witness seq(32, _ => 0 as byte)

  function Zeros(n: nat): (r: seq<byte>)
    ensures |r| == n
  {
    seq(n, _ => 0 as byte)
  }

  /** The all-0x00 label and the all-0x01 label. */
  function ZeroLabel(): Label { seq(16, _ => 0x00 as byte) }
  function OneLabel(): Label { seq(16, _ => 0x01 as byte) }

  /** Bytewise XOR of two labels. */
  function XorLabel(a: Label, b: Label): (r: Label)
    ensures forall i :: 0 <= i < 16 ==> r[i] == a[i] ^ b[i]
  {
    seq(16, i requires 0 <= i < 16 => a[i] ^ b[i])
  }

  /** The first 16 bytes of a digest, as a label. */
  function Prefix16(d: Digest): (r: Label)
    ensures r == d[..16]
  {
    d[..16]
  }

  /** The point-and-permute bit: the low bit of the last byte. */
  function Lsb(l: Label): (r: bool)
    ensures r <==> l[15] & 1 == 1
  {
    l[15] & 1 == 1
  }

  lemma XorLabelCancel(a: Label, b: Label)
    ensures XorLabel(XorLabel(a, b), b) == a
  {
    var r := XorLabel(XorLabel(a, b), b);
    forall i | 0 <= i < 16 ensures r[i] == a[i] {
      assert r[i] == (a[i] ^ b[i]) ^ b[i];
    }
  }

  lemma XorLabelComm(a: Label, b: Label)
    ensures XorLabel(a, b) == XorLabel(b, a)
  {
    var r, s := XorLabel(a, b), XorLabel(b, a);
    forall i | 0 <= i < 16 ensures r[i] == s[i] {
    }
  }

  lemma XorLabelAssoc(a: Label, b: Label, c: Label)
    ensures XorLabel(XorLabel(a, b), c) == XorLabel(a, XorLabel(b, c))
  {
    var r, s := XorLabel(XorLabel(a, b), c), XorLabel(a, XorLabel(b, c));
    forall i | 0 <= i < 16 ensures r[i] == s[i] {
      assert r[i] == (a[i] ^ b[i]) ^ c[i];
      assert s[i] == a[i] ^ (b[i] ^ c[i]);
    }
  }

  /** The permute bit of a XOR is the XOR of the permute bits. */
  lemma LsbXor(a: Label, b: Label)
    ensures Lsb(XorLabel(a, b)) == (Lsb(a) != Lsb(b))
  {
    var x, y := a[15], b[15];
    assert XorLabel(a, b)[15] == x ^ y;
    assert (x ^ y) & 1 == (x & 1) ^ (y & 1);
  }

  function Pow2(k: nat): (r: nat)
    ensures r >= 1
  {
    if k == 0 then 1 else 2 * Pow2(k - 1)
  }

  function Pow256(k: nat): (r: nat)
    ensures r >= 1
  {
    if k == 0 then 1 else 256 * Pow256(k - 1)
  }

  lemma {:induction false} Pow2Add(a: nat, b: nat)
    ensures Pow2(a + b) == Pow2(a) * Pow2(b)
  {
    if a > 0 {
      Pow2Add(a - 1, b);
    }
  }

  lemma {:induction false} Pow256IsPow2(k: nat)
    ensures Pow256(k) == Pow2(8 * k)
  {
    if k > 0 {
      Pow256IsPow2(k - 1);
      Pow2Add(8, 8 * (k - 1));
      assert Pow2(8) == 256;
    }
  }

  /** big.Int.BitLen: the number of bits of n, 0 for 0. */
  function BitLen(n: nat): nat
  {
    if n == 0 then 0 else 1 + BitLen(n / 2)
  }

  lemma {:induction false} BitLenBound(n: nat)
    ensures n < Pow2(BitLen(n))
    ensures n > 0 ==> Pow2(BitLen(n) - 1) <= n
  {
    if n > 0 {
      BitLenBound(n / 2);
    }
  }

  /** big.Int.Bit(i) of a non-negative integer. */
  function Bit(n: nat, i: nat): bool
  {
    (n / Pow2(i)) % 2 == 1
  }

  /** big.Int.SetBytes: the big-endian value of a byte string. */
  function BigEndian(s: seq<byte>): nat
  {
    if s == [] then 0 else 256 * BigEndian(s[..|s| - 1]) + s[|s| - 1] as nat
  }

  lemma {:induction false} BigEndianBound(s: seq<byte>)
    ensures BigEndian(s) < Pow256(|s|)
  {
    if s != [] {
      BigEndianBound(s[..|s| - 1]);
    }
  }

  /** The first byte of a big-endian string weighs 256^(length - 1). */
  lemma {:induction false} BigEndianFirst(s: seq<byte>)
    requires |s| >= 1
    ensures BigEndian(s) == s[0] as nat * Pow256(|s| - 1) + BigEndian(s[1..])
  {
    var n := |s|;
    if n == 1 {
      assert s[..0] == [] && s[1..] == [];
    } else {
      var init, t := s[..n - 1], s[1..];
      BigEndianFirst(init);
      InitOfTail(s);
      var a, p, b, c := s[0] as nat, Pow256(n - 2), BigEndian(init[1..]), s[n - 1] as nat;
      assert BigEndian(t) == 256 * b + c;
      Regroup(a, p, b, c, BigEndian(init), BigEndian(s), Pow256(n - 1));
    }
  }

  lemma InitOfTail(s: seq<byte>)
    requires |s| >= 2
    ensures s[1..][..|s| - 2] == s[..|s| - 1][1..]
    ensures s[1..][|s| - 2] == s[|s| - 1]
  {
  }

  lemma Regroup(a: nat, p: nat, b: nat, c: nat, i: nat, whole: nat, q: nat)
    requires i == a * p + b && whole == 256 * i + c && q == 256 * p
    ensures whole == a * q + (256 * b + c)
  {
  }

  /** big.Int.FillBytes: the magnitude n written big-endian into exactly len bytes. */
  function FillBytes(n: nat, len: nat): (r: seq<byte>)
    requires n < Pow256(len)
    ensures |r| == len
  {
    if len == 0 then []
    else
      assert n / 256 < Pow256(len - 1);
      FillBytes(n / 256, len - 1) + [(n % 256) as byte]
  }

  lemma {:induction false} BigEndianFillBytes(n: nat, len: nat)
    requires n < Pow256(len)
    ensures BigEndian(FillBytes(n, len)) == n
  {
    if len > 0 {
      var q, m := n / 256, n % 256;
      assert n == 256 * q + m;
      assert q < Pow256(len - 1);
      BigEndianFillBytes(q, len - 1);
      var s := FillBytes(n, len);
      assert s[..|s| - 1] == FillBytes(q, len - 1);
      ByteRoundTrip(m);
      assert s[|s| - 1] as nat == m;
      assert BigEndian(s) == 256 * BigEndian(FillBytes(q, len - 1)) + m;
    }
  }

  lemma ByteRoundTrip(m: nat)
    requires m < 256
    ensures (m as byte) as nat == m
  {
    // Splitting the range keeps the solver's bit-vector reasoning small.
    var k := m / 16;
    assert 16 * k <= m < 16 * k + 16;
    if k == 0 {} else if k == 1 {} else if k == 2 {} else if k == 3 {}
    else if k == 4 {} else if k == 5 {} else if k == 6 {} else if k == 7 {}
    else if k == 8 {} else if k == 9 {} else if k == 10 {} else if k == 11 {}
    else if k == 12 {} else if k == 13 {} else if k == 14 {} else {}
  }

  /** Go's integer division, which truncates toward zero. */
  function GoDiv(a: int, b: int): (r: int)
    requires b > 0
    ensures a >= 0 ==> r == a / b
    ensures a < 0 ==> r == -((-a) / b)
  {
    if a >= 0 then a / b else -((-a) / b)
  }

  /** A Go conversion uint32(x): wrap-around modulo 2^32. */
  function Uint32(x: int): (r: nat)
    ensures r < 0x1_0000_0000
    ensures 0 <= x < 0x1_0000_0000 ==> r == x
  {
    x % 0x1_0000_0000
  }

  /** The bytes of an ASCII string literal. */
  function Ascii(s: string): (r: seq<byte>)
    requires forall i :: 0 <= i < |s| ==> s[i] as int < 256
    ensures |r| == |s|
  {
    seq(|s|, i requires 0 <= i < |s| => s[i] as int as byte)
  }
}
