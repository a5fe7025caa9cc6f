/** Scalar sampling and single key pairs, shared by both detection schemes. */
module Sampling {
  import opened Common
  import opened Scheme

  /** An io.Reader of random bytes: what it has left to give. */
  class Reader {
    var data: seq<byte>

    constructor(data: seq<byte>)
      ensures this.data == data
    {
      this.data := data;
    }

    /** io.ReadFull: fill buf completely, or fail after reading everything
        that was left. */
    method ReadFull(buf: array<byte>) returns (ok: bool)
      modifies this, buf
      ensures ok <==> buf.Length <= |old(data)|
      ensures ok ==> buf[..] == old(data)[..buf.Length] && data == old(data)[buf.Length..]
      ensures !ok ==> data == []
    {
      var n := if buf.Length <= |data| then buf.Length else |data|;
      for i := 0 to n
        invariant forall k :: 0 <= k < i ==> buf[k] == data[k]
        modifies buf
      {
        buf[i] := data[i];
      }
      ok := buf.Length <= |data|;
      data := if ok then data[n..] else [];
    }
  }

  /** The mask table of sampleRandomScalar: entry r keeps the low r bits of a
      byte, entry 0 keeps all eight. */
  function Mask(r: nat): byte
    requires r < 8
  {
    [0xff, 0x01, 0x03, 0x07, 0x0f, 0x1f, 0x3f, 0x7f][r]
  }

  /** The bytes one attempt reads for a group of order n: ceil(bitlen(n) / 8). */
  function ByteLen(n: nat): nat
  {
    (BitLen(n) + 7) / 8
  }

  /** A block after the mask and the 0x42 flip. */
  function Masked(block: seq<byte>, bitSize: nat): (r: seq<byte>)
    requires |block| >= 2
    ensures |r| == |block| && r[2..] == block[2..]
    ensures r[0] == block[0] & Mask(bitSize % 8) && r[1] == block[1] ^ 0x42
  {
    block[0 := block[0] & Mask(bitSize % 8)][1 := block[1] ^ 0x42]
  }

  /** The scalar one attempt makes of a block: the first byte masked down to
      the bit length, the second XORed with 0x42. */
  function Candidate(block: seq<byte>, bitSize: nat): nat
    requires |block| >= 2
  {
    BigEndian(Masked(block, bitSize))
  }

  /** The outcome of sampleRandomScalar on a random stream: the first candidate
      below n, taking ByteLen(n) bytes per attempt, and the unread rest; nothing
      when the stream runs out, or when an attempt has fewer than two bytes
      (Go indexes priv[1] and panics). */
  function SampleFrom(data: seq<byte>, n: nat): (r: (Option<nat>, seq<byte>))
    ensures r.0.Some? ==> r.0.value < n
    ensures |r.1| <= |data|
    decreases |data|
  {
    var len := ByteLen(n);
    if |data| < len then (None, [])
    else if len < 2 then (None, data[len..])
    else
      var c := Candidate(data[..len], BitLen(n));
      if c < n then (Some(c), data[len..]) else SampleFrom(data[len..], n)
  }

  /** Every candidate fits in bitlen(n) bits: the mask clears exactly the
      excess bits of the first byte. */
  lemma CandidateFits(block: seq<byte>, bitSize: nat)
    requires |block| == (bitSize + 7) / 8 && |block| >= 2
    ensures Candidate(block, bitSize) < Pow2(bitSize)
  {
    var r := bitSize % 8;
    var s := Masked(block, bitSize);
    var top := if r == 0 then 8 else r;
    MaskBound(block[0], r);
    TopBound(s, top);
    ByteLenArith(bitSize);
  }

  /** A big-endian string whose first byte has at most top bits has at most
      top + 8 * (length - 1) bits. */
  lemma TopBound(s: seq<byte>, top: nat)
    requires |s| >= 1 && s[0] as nat < Pow2(top)
    ensures BigEndian(s) < Pow2(top + 8 * (|s| - 1))
  {
    var k := |s| - 1;
    BigEndianFirst(s);
    BigEndianBound(s[1..]);
    Pow256IsPow2(k);
    Pow2Add(top, 8 * k);
    BoundChain(BigEndian(s), s[0] as nat, BigEndian(s[1..]), Pow256(k), Pow2(top));
  }

  lemma BoundChain(v: nat, x: nat, rest: nat, p: nat, limit: nat)
    requires v == x * p + rest && rest < p && x < limit
    ensures v < limit * p
  {
    StepBelow(x, p, rest);
    MulMono(x + 1, limit, p);
  }

  /** The bit length splits into the top byte's bits and whole bytes. */
  lemma ByteLenArith(bitSize: nat)
    requires (bitSize + 7) / 8 >= 1
    ensures (if bitSize % 8 == 0 then 8 else bitSize % 8) + 8 * ((bitSize + 7) / 8 - 1) == bitSize
  {
  }

  /** A masked byte holds at most r bits (8 for r = 0). */
  lemma MaskBound(b: byte, r: nat)
    requires r < 8
    ensures (b & Mask(r)) as nat < Pow2(if r == 0 then 8 else r)
  {
    AndBelow(b, Mask(r));
    assert Pow2(1) == 2 && Pow2(2) == 4 && Pow2(3) == 8 && Pow2(4) == 16;
    assert Pow2(5) == 32 && Pow2(6) == 64 && Pow2(7) == 128 && Pow2(8) == 256;
    assert Mask(r) as nat < Pow2(if r == 0 then 8 else r) by {
      if r == 0 { assert Mask(0) as nat == 255; }
      else if r == 1 { assert Mask(1) as nat == 1; }
      else if r == 2 { assert Mask(2) as nat == 3; }
      else if r == 3 { assert Mask(3) as nat == 7; }
      else if r == 4 { assert Mask(4) as nat == 15; }
      else if r == 5 { assert Mask(5) as nat == 31; }
      else if r == 6 { assert Mask(6) as nat == 63; }
      else { assert Mask(7) as nat == 127; }
    }
  }

  /** Masking cannot exceed the mask. */
  lemma AndBelow(b: byte, m: byte)
    ensures (b & m) as nat <= m as nat
  {
    assert b & m <= m;
  }

  lemma StepBelow(x: nat, p: nat, y: nat)
    requires y < p
    ensures x * p + y < (x + 1) * p
  {
  }

  lemma MulMono(a: nat, b: nat, c: nat)
    requires a <= b
    ensures a * c <= b * c
  {
  }

  /** sampleRandomScalar: read ByteLen bytes into priv, mask the first, flip
      bits of the second, and retry while the value is not below N; a failed
      read returns nil at once. */
  method SampleRandomScalar(curve: Curve, random: Reader) returns (x: Option<nat>)
    modifies random
    ensures (x, random.data) == SampleFrom(old(random.data), curve.n)
  {
    var n := curve.n;
    var bitSize := BitLen(n);
    var byteLen := (bitSize + 7) / 8;
    var priv := new byte[byteLen];
    var done := false;
    x := None;
    while !done
      invariant priv.Length == ByteLen(n)
      invariant !done ==> SampleFrom(random.data, n) == SampleFrom(old(random.data), n)
      invariant done ==> (x, random.data) == SampleFrom(old(random.data), n)
      decreases if done then 0 else |random.data| + 1
    {
      var ok, candidate := Attempt(n, priv, random);
      if !ok {
        return None;
      }
      x := Some(candidate);
      if candidate >= n {
        continue;
      }
      done := true;
    }
  }

  /** One pass of the sampling loop: the masked block and the candidate
      scalar; on failure the whole sampling fails. */
  method Attempt(n: nat, priv: array<byte>, random: Reader) returns (ok: bool, candidate: nat)
    requires priv.Length == ByteLen(n)
    modifies priv, random
    ensures !ok ==> (None, random.data) == SampleFrom(old(random.data), n)
    ensures ok ==> |random.data| + 2 <= |old(random.data)|
    ensures ok && candidate < n ==> (Some(candidate), random.data) == SampleFrom(old(random.data), n)
    ensures ok && candidate >= n ==> SampleFrom(random.data, n) == SampleFrom(old(random.data), n)
  {
    ghost var before := random.data;
    ok := ReadAndMask(BitLen(n), priv, random);
    candidate := 0;
    if !ok {
      return;
    }
    candidate := BigEndian(priv[..]);
    SampleFromStep(before, n);
  }

  /** ReadFull into priv, then the mask on the first byte and the 0x42 flip on
      the second, in place; a short read or a block under two bytes fails. */
  method ReadAndMask(bitSize: nat, priv: array<byte>, random: Reader) returns (ok: bool)
    modifies priv, random
    ensures ok <==> 2 <= priv.Length <= |old(random.data)|
    ensures ok ==> priv[..] == Masked(old(random.data)[..priv.Length], bitSize)
    ensures |old(random.data)| < priv.Length ==> random.data == []
    ensures priv.Length <= |old(random.data)| ==> random.data == old(random.data)[priv.Length..]
  {
    ok := random.ReadFull(priv);
    if !ok || priv.Length < 2 {
      return false;
    }
    ghost var block := priv[..];
    priv[0] := priv[0] & Mask(bitSize % 8);
    priv[1] := priv[1] ^ 0x42;
    assert priv[..] == Masked(block, bitSize);
  }

  /** One unfolding of SampleFrom when a full block of at least two bytes is
      there. */
  lemma SampleFromStep(data: seq<byte>, n: nat)
    requires 2 <= ByteLen(n) <= |data|
    ensures SampleFrom(data, n) ==
      var c := Candidate(data[..ByteLen(n)], BitLen(n));
      if c < n then (Some(c), data[ByteLen(n)..]) else SampleFrom(data[ByteLen(n)..], n)
  {
  }

  /** k scalars drawn one after another by sampleRandomScalar from the same
      stream, and the unread rest; nothing when any of the draws fails. */
  function SampleN(data: seq<byte>, n: nat, k: nat): (r: Option<(seq<nat>, seq<byte>)>)
    ensures r.Some? ==> |r.value.0| == k && |r.value.1| <= |data|
    ensures r.Some? ==> forall i :: 0 <= i < k ==> r.value.0[i] < n
  {
    if k == 0 then Some(([], data))
    else match SampleN(data, n, k - 1)
      case None => None
      case Some((xs, rest)) =>
        var s := SampleFrom(rest, n);
        if s.0.None? then None else Some((xs + [s.0.value], s.1))
  }

  /** Drawing j <= k scalars is the start of drawing k: when the k draws
      succeed, the first j do and give the first j scalars; when the first
      j fail, so do the k. */
  lemma {:induction false} SampleNPrefix(data: seq<byte>, n: nat, j: nat, k: nat)
    requires j <= k
    ensures SampleN(data, n, k).Some? ==>
      SampleN(data, n, j).Some? && SampleN(data, n, j).value.0 == SampleN(data, n, k).value.0[..j]
    decreases k
  {
    if j < k {
      SampleNPrefix(data, n, j, k - 1);
      if SampleN(data, n, k).Some? {
        var prev := SampleN(data, n, k - 1).value.0;
        assert SampleN(data, n, k).value.0 == prev + [SampleFrom(SampleN(data, n, k - 1).value.1, n).0.value];
        assert SampleN(data, n, k).value.0[..j] == prev[..j];
      }
    }
  }

  /** keyGenSingle: a scalar x from sampleRandomScalar and the point x·P; the
      nil scalar of a failed read makes Go panic, here a failure. */
  method KeyGenSingle(curve: Curve, random: Reader) returns (r: Option<(nat, GroupElement)>)
    modifies random
    ensures (r.None?, random.data) == (SampleFrom(old(random.data), curve.n).0.None?, SampleFrom(old(random.data), curve.n).1)
    ensures r.Some? ==> r.value.0 == SampleFrom(old(random.data), curve.n).0.value
    ensures r.Some? ==> r.value.0 < curve.n && r.value.1 == curve.scalarBaseMult(MinimalBytes(r.value.0))
  {
    var priv := SampleRandomScalar(curve, random);
    if priv.None? {
      return None;
    }
    var pub := curve.scalarBaseMult(MinimalBytes(priv.value));
    return Some((priv.value, pub));
  }

  /** The loop both KeyGens run: k calls of keyGenSingle, key pair i going to
      slot i. It fails as soon as one draw does, and otherwise the secret keys
      are the k scalars SampleN draws, each public key its scalar times P. */
  method KeyPairs(curve: Curve, k: nat, random: Reader) returns (r: Option<(seq<nat>, seq<GroupElement>)>)
    modifies random
    ensures r.Some? <==> SampleN(old(random.data), curve.n, k).Some?
    ensures r.Some? ==> (r.value.0, random.data) == SampleN(old(random.data), curve.n, k).value
    ensures r.Some? ==> |r.value.1| == k
    ensures r.Some? ==> forall i :: 0 <= i < k ==> r.value.1[i] == curve.scalarBaseMult(MinimalBytes(r.value.0[i]))
  {
    ghost var data0 := random.data;
    var secKeys: seq<nat> := [];
    var pubKeys: seq<GroupElement> := [];
    var i := 0;
    while i < k
      invariant 0 <= i <= k && |pubKeys| == i
      invariant SampleN(data0, curve.n, i) == Some((secKeys, random.data))
      invariant forall j :: 0 <= j < i ==> pubKeys[j] == curve.scalarBaseMult(MinimalBytes(secKeys[j]))
    {
      var kp := KeyGenSingle(curve, random);
      if kp.None? {
        SampleNPrefix(data0, curve.n, i + 1, k);
        return None;
      }
      secKeys, pubKeys := secKeys + [kp.value.0], pubKeys + [kp.value.1];
      i := i + 1;
    }
    r := Some((secKeys, pubKeys));
  }
}
