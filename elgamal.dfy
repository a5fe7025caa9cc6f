/** The power-of-two fuzzy message detection scheme: one ElGamal-style bit per
    public key, all packed into a bit vector, bound to the rest of the
    ciphertext by the hash G and a Schnorr-like value Y. */
module ElGamal {
  import opened Common
  import opened Scheme
  import opened Sampling

  /** Ciphertext: the point U = r·P, the packed bits and Y. */
  datatype Ciphertext = Ciphertext(u: GroupElement, bitVec: seq<byte>, y: nat)

  // ---------------------------------------------------------------------------
  // Hashes

  /** computeHashH: the low bit of the first byte of
      SHA-256("HashH" || A || B || C) over the encoded points. */
  function HashH(curve: Curve, sha: Sha256, one: GroupElement, two: GroupElement, three: GroupElement): (r: byte)
    ensures r == 0 || r == 1
  {
    var serialized := Ascii("HashH") + curve.marshal(one) + curve.marshal(two) + curve.marshal(three);
    sha(serialized)[0] & 0x01
  }

  /** n copies of the byte "X". */
  function Xs(n: nat): (r: seq<byte>)
    ensures |r| == n
  {
    seq(n, _ => 'X' as int as byte)
  }

  /** The first k digests computeHashG appends: digest i hashes the input
      followed by i copies of "X". */
  function GDigests(sha: Sha256, serialized: seq<byte>, k: nat): (h: seq<byte>)
    ensures |h| == 32 * k
  {
    if k == 0 then [] else GDigests(sha, serialized, k - 1) + sha(serialized + Xs(k - 1))
  }

  /** The number of digests computeHashG hashes for a target of t: the loop
      stops once len(h)/8, which is 4 per digest, reaches t. */
  function NumDigests(t: nat): nat
  {
    (t + 3) / 4
  }

  /** The target is reached with the last digest and not before: the buffer
      holds len(h)/8 >= bitlen(N) + 64 "bits", which are in truth bytes. */
  lemma NumDigestsMinimal(t: nat)
    requires t > 0
    ensures NumDigests(t) >= 1
    ensures (32 * NumDigests(t)) / 8 >= t
    ensures (32 * (NumDigests(t) - 1)) / 8 < t
  {
  }

  /** The serialisation computeHashG hashes: "HashG" || U || bitVec. */
  function GInput(curve: Curve, u: GroupElement, bitVec: seq<byte>): seq<byte>
  {
    Ascii("HashG") + curve.marshal(u) + bitVec
  }

  /** The value of computeHashG. */
  function HashG(curve: Curve, sha: Sha256, u: GroupElement, bitVec: seq<byte>): nat
    requires curve.n > 0
  {
    BigEndian(GDigests(sha, GInput(curve, u, bitVec), NumDigests(BitLen(curve.n) + 64))) % curve.n
  }

  /** computeHashG: hash, append the digest and an "X" until len(h)/8 reaches
      bitlen(N) + 64, then reduce the big-endian value of h modulo N. */
  method ComputeHashG(curve: Curve, sha: Sha256, u: GroupElement, bitVec: seq<byte>) returns (result: nat)
    requires curve.n > 0
    ensures result == HashG(curve, sha, u, bitVec)
    ensures result < curve.n
  {
    var n := curve.n;
    var serialized := GInput(curve, u, bitVec);
    ghost var start := serialized;
    var bitSize := BitLen(n) + 64;
    var bitsHashed := 0;
    var h: seq<byte> := [];
    ghost var k: nat := 0;
    while bitsHashed < bitSize
      invariant h == GDigests(sha, start, k) && bitsHashed == 4 * k
      invariant bitsHashed < bitSize ==> serialized == start + Xs(k)
      invariant 4 * (k - 1) < bitSize
      decreases bitSize - bitsHashed
    {
      var hash := sha(serialized);
      h := h + hash;
      k := k + 1;
      bitsHashed := |h| / 8;
      if bitsHashed < bitSize {
        serialized := serialized + Xs(1);
        assert Xs(k - 1) + Xs(1) == Xs(k);
      }
    }
    assert k == NumDigests(bitSize);
    result := BigEndian(h) % n;
  }

  // ---------------------------------------------------------------------------
  // The bit vector

  /** Bit i of a packed vector: bit i % 8 of byte i / 8. */
  function ReadBit(vec: seq<byte>, i: nat): (r: byte)
    requires i / 8 < |vec|
    ensures r == 0 || r == 1
  {
    ByteBit(vec[i / 8], i % 8)
  }

  /** Bit p of a byte. */
  function ByteBit(x: byte, p: nat): (r: byte)
    requires p < 8
    ensures r == 0 || r == 1
  {
    (x >> p) & 0x01
  }

  /** ORing a bit b into position p of a byte whose bit p is clear sets that
      bit to b and leaves the others. */
  lemma SetBit(x: byte, p: nat, b: byte, q: nat)
    requires p < 8 && q < 8 && (b == 0 || b == 1) && ByteBit(x, p) == 0
    ensures ByteBit(x | (b << p), q) == if q == p then b else ByteBit(x, q)
  {
  }

  /** The packed vector of Flag read back bit by bit: position i holds bit i
      for every i below the number of bits, and the padding bits are zero. */
  predicate Packs(vec: seq<byte>, bits: seq<byte>)
  {
    && |vec| == (|bits| + 7) / 8
    && forall i :: 0 <= i < 8 * |vec| ==> ReadBit(vec, i) == if i < |bits| then bits[i] else 0
  }

  // ---------------------------------------------------------------------------
  // Y

  predicate IsInverse(r: nat, i: nat, n: nat)
    requires n > 0
  {
    (r * i) % n == 1 % n
  }

  /** big.Int.ModInverse: the inverse of r modulo n in [0, n), or nothing when
      r has none. */
  function ModInverse(r: nat, n: nat): (inv: Option<nat>)
    requires n > 0
    ensures inv.Some? ==> inv.value < n && IsInverse(r, inv.value, n)
    ensures inv.None? ==> forall i :: 0 <= i < n ==> !IsInverse(r, i, n)
  {
    InverseFrom(r, n, 0)
  }

  function InverseFrom(r: nat, n: nat, from: nat): (inv: Option<nat>)
    requires n > 0
    ensures inv.Some? ==> from <= inv.value < n && IsInverse(r, inv.value, n)
    ensures inv.None? ==> forall i :: from <= i < n ==> !IsInverse(r, i, n)
    decreases n - from
  {
    if from >= n then None
    else if IsInverse(r, from, n) then Some(from)
    else InverseFrom(r, n, from + 1)
  }

  /** Y = ((z - v) mod N) · r^-1 mod N, where a missing inverse leaves the
      multiplier at 0. Y lies in [0, N), and when r is invertible it solves
      v + Y·r = z (mod N), so that v·P + Y·U = z·P. */
  function ComputeY(z: nat, v: nat, r: nat, n: nat): (y: nat)
    requires n > 0
    ensures y < n
    ensures ModInverse(r, n).Some? ==> (v + y * r) % n == z % n
    ensures ModInverse(r, n).None? ==> y == 0
  {
    var t := (z - v) % n;
    match ModInverse(r, n)
    case None => 0
    case Some(inv) =>
      var y := (t * inv) % n;
      YSolves(z, v, r, n, inv, t, y);
      y
  }

  lemma YSolves(z: nat, v: nat, r: nat, n: nat, inv: nat, t: nat, y: nat)
    requires n > 0 && IsInverse(r, inv, n) && t == (z - v) % n && y == (t * inv) % n
    ensures (v + y * r) % n == z % n
  {
    // y·r = t·inv·r = t·(inv·r) = t (mod n)
    ModMulLeft(t * inv, r, n);
    assert (y * r) % n == (t * inv * r) % n;
    assert t * inv * r == t * (inv * r);
    ModMulRight(t, inv * r, n);
    assert (r * inv) % n == 1 % n;
    assert inv * r == r * inv;
    ModMulRight(t, 1, n);
    assert (y * r) % n == t % n;
    // v + y·r = v + (z - v) = z (mod n)
    ModAddRight(v, y * r, n);
    ModAddRight(v, z - v, n);
    ModSmall(t, n);
  }

  lemma ModUnique(x: int, n: int, q: int, r: int)
    requires n > 0 && x == q * n + r && 0 <= r < n
    ensures x % n == r
  {
    var q', r' := x / n, x % n;
    assert x == q' * n + r';
    assert (q - q') * n == r' - r;
    if q > q' {
      MulAtLeast(q - q', n);
    } else if q < q' {
      MulAtLeast(q' - q, n);
    }
  }

  lemma ModSmall(z: int, n: int)
    requires 0 <= z < n
    ensures z % n == z
  {
  }

  lemma MulAtLeast(a: int, n: int)
    requires a >= 1 && n > 0
    ensures a * n >= n
  {
  }

  lemma ModMulLeft(a: int, b: int, n: int)
    requires n > 0
    ensures ((a % n) * b) % n == (a * b) % n
  {
    var q, r := a / n, a % n;
    assert a * b == (q * b) * n + r * b;
    var q2, r2 := (r * b) / n, (r * b) % n;
    assert a * b == (q * b + q2) * n + r2;
    ModUnique(a * b, n, q * b + q2, r2);
  }

  lemma ModMulRight(a: int, b: int, n: int)
    requires n > 0
    ensures (a * (b % n)) % n == (a * b) % n
  {
    ModMulLeft(b, a, n);
    assert a * (b % n) == (b % n) * a;
    assert a * b == b * a;
  }

  lemma ModAddRight(a: int, b: int, n: int)
    requires n > 0
    ensures (a + b % n) % n == (a + b) % n
  {
    var q := b / n;
    assert a + b == q * n + (a + b % n);
    var q2, r2 := (a + b % n) / n, (a + b % n) % n;
    assert a + b == (q + q2) * n + r2;
    ModUnique(a + b, n, q + q2, r2);
  }

  // ---------------------------------------------------------------------------
  // Key generation

  /** What KeyGen produces: as many secret scalars as public points, each
      point the base point times its scalar, each scalar below N. */
  predicate KeyPair(curve: Curve, priv: SecKey, pub: PubKey)
  {
    && priv.Valid() && pub.Valid()
    && priv.numKeys == pub.numKeys
    && forall i :: 0 <= i < |priv.secKeys| ==>
         priv.secKeys[i] < curve.n && pub.pubKeys[i] == curve.scalarBaseMult(MinimalBytes(priv.secKeys[i]))
  }

  /** KeyGen: numKeys independent key pairs, prob = uint32(numKeys). A
      negative count (make panics) or a failed sample gives nothing. */
  method KeyGen(curve: Curve, numKeys: int, random: Reader) returns (r: Option<(SecKey, PubKey)>)
    modifies random
    ensures r.Some? <==> numKeys >= 0 && SampleN(old(random.data), curve.n, numKeys).Some?
    ensures r.Some? ==> KeyPair(curve, r.value.0, r.value.1)
    ensures r.Some? ==> r.value.0.numKeys == numKeys && r.value.0.prob == Uint32(numKeys)
    ensures r.Some? ==> (r.value.0.secKeys, random.data) == SampleN(old(random.data), curve.n, numKeys).value
  {
    if numKeys < 0 {
      return None;
    }
    var keys := KeyPairs(curve, numKeys, random);
    if keys.None? {
      return None;
    }
    r := Some((SecKey(numKeys, keys.value.0, Uint32(numKeys)), PubKey(numKeys, keys.value.1)));
  }

  // ---------------------------------------------------------------------------
  // Flag

  /** The bit Flag encrypts under public key pk_i: H(U, r·pk_i, Z) XOR 1. */
  function Pads(curve: Curve, sha: Sha256, pubKeys: seq<GroupElement>, rBytes: seq<byte>, u: GroupElement, z: GroupElement): (pads: seq<byte>)
    ensures |pads| == |pubKeys|
    ensures forall i :: 0 <= i < |pads| ==> pads[i] == HashH(curve, sha, u, curve.scalarMult(pubKeys[i], rBytes), z) ^ 0x01
  {
    seq(|pubKeys|, i requires 0 <= i < |pubKeys| => HashH(curve, sha, u, curve.scalarMult(pubKeys[i], rBytes), z) ^ 0x01)
  }

  /** The public keys Flag encrypts under: the first numKeys of them. */
  function KeysUsed(pk: PubKey): (keys: seq<GroupElement>)
    ensures pk.numKeys <= |pk.pubKeys| ==> |keys| == if pk.numKeys <= 0 then 0 else pk.numKeys
  {
    if pk.numKeys <= 0 then [] else if pk.numKeys <= |pk.pubKeys| then pk.pubKeys[..pk.numKeys] else pk.pubKeys
  }

  /** The ciphertext Flag builds from the scalars r and z: U = r·P, the pads
      packed eight to a byte, and Y from v = G(U, bitVec). */
  predicate FlagOutput(curve: Curve, sha: Sha256, pk: PubKey, r: nat, z: nat, ct: Ciphertext)
    requires curve.n > 0
  {
    && r < curve.n && z < curve.n
    && pk.numKeys <= |pk.pubKeys|
    && ct.u == curve.scalarBaseMult(MinimalBytes(r))
    && Packs(ct.bitVec, Pads(curve, sha, KeysUsed(pk), MinimalBytes(r), ct.u, curve.scalarBaseMult(MinimalBytes(z))))
    && ct.y == ComputeY(z, HashG(curve, sha, ct.u, ct.bitVec), r, curve.n)
  }

  /** The bit-vector loop of Flag: a vector of (numKeys + 7) / 8 zero bytes
      (Go division; a negative length panics), into which bit i of the pads
      is ORed at position i; a key index past the public keys panics. */
  method PackPads(curve: Curve, sha: Sha256, pk: PubKey, rBytes: seq<byte>, u: GroupElement, z: GroupElement)
    returns (r: Option<seq<byte>>)
    ensures r.Some? <==> GoDiv(pk.numKeys + 7, 8) >= 0 && pk.numKeys <= |pk.pubKeys|
    ensures r.Some? ==> Packs(r.value, Pads(curve, sha, KeysUsed(pk), rBytes, u, z))
  {
    var len := GoDiv(pk.numKeys + 7, 8);
    if len < 0 || pk.numKeys > |pk.pubKeys| {
      return None;
    }
    var n := if pk.numKeys <= 0 then 0 else pk.numKeys;
    assert len == (n + 7) / 8;
    ghost var pads := Pads(curve, sha, KeysUsed(pk), rBytes, u, z);
    var bitVec := new byte[len](_ => 0);
    var i := 0;
    while i < n
      invariant 0 <= i <= n
      invariant forall k :: 0 <= k < 8 * len ==> ReadBit(bitVec[..], k) == if k < i then pads[k] else 0
    {
      var pkR := curve.scalarMult(pk.pubKeys[i], rBytes);
      var padChar := HashH(curve, sha, u, pkR, z);
      padChar := padChar ^ 0x01;
      SetBitInVector(bitVec, i, padChar, pads, n);
      i := i + 1;
    }
    r := Some(bitVec[..]);
  }

  /** One step of the loop: bitVec[i / 8] |= pad << (i % 8). */
  method SetBitInVector(bitVec: array<byte>, i: nat, pad: byte, ghost pads: seq<byte>, ghost n: nat)
    requires i < n <= |pads| && bitVec.Length == (n + 7) / 8 && pad == pads[i] && (pad == 0 || pad == 1)
    requires forall k :: 0 <= k < 8 * bitVec.Length ==> ReadBit(bitVec[..], k) == if k < i then pads[k] else 0
    modifies bitVec
    ensures forall k :: 0 <= k < 8 * bitVec.Length ==> ReadBit(bitVec[..], k) == if k < i + 1 then pads[k] else 0
  {
    ghost var before := bitVec[..];
    assert ReadBit(before, i) == 0;
    bitVec[i / 8] := bitVec[i / 8] | (pad << (i % 8));
    forall k | 0 <= k < 8 * bitVec.Length
      ensures ReadBit(bitVec[..], k) == if k < i + 1 then pads[k] else 0
    {
      SetBitSeq(before, bitVec[..], i, pad, k);
    }
  }

  /** Reading the vector after one OR: only position i changes, to pad. */
  lemma SetBitSeq(before: seq<byte>, after: seq<byte>, i: nat, pad: byte, k: nat)
    requires i / 8 < |before| && k / 8 < |before| && (pad == 0 || pad == 1) && ReadBit(before, i) == 0
    requires after == before[i / 8 := before[i / 8] | (pad << (i % 8))]
    ensures ReadBit(after, k) == if k == i then pad else ReadBit(before, k)
  {
    if k / 8 == i / 8 {
      SetBit(before[i / 8], i % 8, pad, k % 8);
      SamePosition(i, k);
    } else {
      assert after[k / 8] == before[k / 8];
    }
  }

  lemma SamePosition(i: nat, k: nat)
    requires k / 8 == i / 8
    ensures k % 8 == i % 8 <==> k == i
  {
  }

  /** Flag: sample r and z, set U = r·P and Z = z·P, pack the pads, and
      solve Y. The result is the ciphertext record; a panic of the source
      (negative bit-vector length, a failed sample, too few public keys) gives
      nothing. */
  method Flag(curve: Curve, sha: Sha256, random: Reader, pk: PubKey) returns (r: Option<Ciphertext>)
    requires curve.n > 0
    modifies random
    ensures r.Some? <==>
      && GoDiv(pk.numKeys + 7, 8) >= 0
      && SampleFrom(old(random.data), curve.n).0.Some?
      && SampleFrom(SampleFrom(old(random.data), curve.n).1, curve.n).0.Some?
      && pk.numKeys <= |pk.pubKeys|
    ensures r.Some? ==>
      FlagOutput(curve, sha, pk, SampleFrom(old(random.data), curve.n).0.value,
                 SampleFrom(SampleFrom(old(random.data), curve.n).1, curve.n).0.value, r.value)
  {
    if GoDiv(pk.numKeys + 7, 8) < 0 {
      return None;
    }
    var rr := SampleRandomScalar(curve, random);
    var zz := SampleRandomScalar(curve, random);
    if rr.None? || zz.None? {
      return None;
    }
    var u := curve.scalarBaseMult(MinimalBytes(rr.value));
    var z := curve.scalarBaseMult(MinimalBytes(zz.value));
    var bitVec := PackPads(curve, sha, pk, MinimalBytes(rr.value), u, z);
    if bitVec.None? {
      return None;
    }
    var v := ComputeHashG(curve, sha, u, bitVec.value);
    var y := ComputeY(zz.value, v, rr.value, curve.n);
    r := Some(Ciphertext(u, bitVec.value, y));
  }

  // ---------------------------------------------------------------------------
  // Extract

  /** Extract: the first numKeys secret keys with prob = uint32(numKeys); more
      keys than the key holds give nothing, and so does a negative count or
      a key list shorter than its count (both panic). */
  method Extract(numKeys: int, priv: SecKey) returns (r: Option<SecKey>)
    ensures r.Some? <==> 0 <= numKeys <= priv.numKeys && numKeys <= |priv.secKeys|
    ensures r.Some? ==> r.value.numKeys == numKeys && r.value.prob == Uint32(numKeys)
    ensures r.Some? ==> r.value.secKeys == priv.secKeys[..numKeys]
  {
    if numKeys > priv.numKeys || numKeys < 0 {
      return None;
    }
    var secKeys := new nat[numKeys];
    var i := 0;
    while i < numKeys
      invariant 0 <= i <= numKeys
      invariant i <= |priv.secKeys|
      invariant secKeys[..i] == priv.secKeys[..i]
    {
      if i >= |priv.secKeys| {
        return None;
      }
      secKeys[i] := priv.secKeys[i];
      i := i + 1;
    }
    if numKeys > |priv.secKeys| {
      return None;
    }
    assert secKeys[..] == secKeys[..numKeys];
    r := Some(SecKey(numKeys, secKeys[..], Uint32(numKeys)));
  }

  /** An extracted key of a valid key is valid, and detects with the first
      numKeys of its secret scalars. */
  lemma ExtractValid(priv: SecKey, numKeys: nat, dsk: SecKey)
    requires priv.Valid() && numKeys <= priv.numKeys
    requires dsk == SecKey(numKeys, priv.secKeys[..numKeys], Uint32(numKeys))
    ensures dsk.Valid()
    ensures numKeys < 0x1_0000_0000 ==> dsk.prob == numKeys
    ensures forall i :: 0 <= i < dsk.numKeys ==> dsk.secKeys[i] == priv.secKeys[i]
  {
  }

  // ---------------------------------------------------------------------------
  // Test

  /** Z as Test recomputes it: v·P + Y·U with v = G(U, bitVec). */
  function TestZ(curve: Curve, sha: Sha256, ct: Ciphertext): GroupElement
    requires curve.n > 0
  {
    var v := HashG(curve, sha, ct.u, ct.bitVec);
    curve.add(curve.scalarBaseMult(MinimalBytes(v)), curve.scalarMult(ct.u, MinimalBytes(ct.y)))
  }

  /** The bit Test decrypts with secret key sk at position i:
      H(U, sk·U, Z) XOR bit i of the vector. */
  function TestBit(curve: Curve, sha: Sha256, ct: Ciphertext, z: GroupElement, sk: nat, i: nat): (b: byte)
    requires i / 8 < |ct.bitVec|
    ensures b == 0 || b == 1
  {
    HashH(curve, sha, ct.u, curve.scalarMult(ct.u, MinimalBytes(sk)), z) ^ ReadBit(ct.bitVec, i)
  }

  /** Whether Test can look at every key: enough secret keys and enough bytes
      in the vector (otherwise an index panics). */
  predicate TestInRange(ct: Ciphertext, dsk: SecKey)
  {
    dsk.numKeys <= 0 || (dsk.numKeys <= |dsk.secKeys| && (dsk.numKeys - 1) / 8 < |ct.bitVec|)
  }

  /** Test: true exactly when every decrypted bit is 1; in particular a key
      with no subkeys accepts everything. */
  function TestResult(curve: Curve, sha: Sha256, ct: Ciphertext, dsk: SecKey): Option<bool>
    requires curve.n > 0
  {
    if !TestInRange(ct, dsk) then None
    else Some(forall i :: 0 <= i < dsk.numKeys ==> TestBit(curve, sha, ct, TestZ(curve, sha, ct), dsk.secKeys[i], i) == 1)
  }

  /** Test on the ciphertext record: recompute Z, then decrypt each bit,
      clearing the result at any bit that is 0. */
  method Test(curve: Curve, sha: Sha256, ct: Ciphertext, dsk: SecKey) returns (r: Option<bool>)
    requires curve.n > 0
    ensures r == TestResult(curve, sha, ct, dsk)
  {
    var v := ComputeHashG(curve, sha, ct.u, ct.bitVec);
    var z := curve.scalarBaseMult(MinimalBytes(v));
    var temp := curve.scalarMult(ct.u, MinimalBytes(ct.y));
    z := curve.add(z, temp);
    r := TestBits(curve, sha, ct, z, dsk);
  }

  /** The loop of Test over the subkeys, with Z already computed. */
  method TestBits(curve: Curve, sha: Sha256, ct: Ciphertext, z: GroupElement, dsk: SecKey) returns (r: Option<bool>)
    ensures r.Some? <==> TestInRange(ct, dsk)
    ensures r.Some? ==> (r.value <==> forall i :: 0 <= i < dsk.numKeys ==> TestBit(curve, sha, ct, z, dsk.secKeys[i], i) == 1)
  {
    var result := true;
    var i := 0;
    while i < dsk.numKeys
      invariant 0 <= i <= if dsk.numKeys < 0 then 0 else dsk.numKeys
      invariant i <= |dsk.secKeys| && (i == 0 || (i - 1) / 8 < |ct.bitVec|)
      invariant result <==> forall k :: 0 <= k < i ==> TestBit(curve, sha, ct, z, dsk.secKeys[k], k) == 1
    {
      if i >= |dsk.secKeys| || i / 8 >= |ct.bitVec| {
        return None;
      }
      var pkR := curve.scalarMult(ct.u, MinimalBytes(dsk.secKeys[i]));
      var padChar := HashH(curve, sha, ct.u, pkR, z);
      padChar := padChar ^ ByteBit(ct.bitVec[i / 8], i % 8);
      assert padChar == TestBit(curve, sha, ct, z, dsk.secKeys[i], i);
      if padChar == 0 {
        result := false;
      }
      i := i + 1;
    }
    return Some(result);
  }

  /** A detection key with no subkeys matches every ciphertext. */
  lemma EmptyKeyAcceptsAll(curve: Curve, sha: Sha256, ct: Ciphertext, dsk: SecKey)
    requires curve.n > 0 && dsk.numKeys == 0
    ensures TestResult(curve, sha, ct, dsk) == Some(true)
  {
  }

  // ---------------------------------------------------------------------------
  // Correctness

  /** No false negatives, given the group: when Test's recomputed Z is the Z
      Flag used and each subkey's shared point sk_i·U is the point r·pk_i Flag
      hashed, every decrypted bit is H XOR (H XOR 1) = 1, so Test accepts. The
      two equalities are facts about the curve, which stays uninterpreted. */
  lemma {:induction false} Correctness(curve: Curve, sha: Sha256, pub: PubKey, r: nat, z: nat, ct: Ciphertext, dsk: SecKey)
    requires curve.n > 0 && FlagOutput(curve, sha, pub, r, z, ct)
    requires 0 <= dsk.numKeys <= |KeysUsed(pub)| && dsk.numKeys <= |dsk.secKeys|
    requires TestZ(curve, sha, ct) == curve.scalarBaseMult(MinimalBytes(z))
    requires forall i :: 0 <= i < dsk.numKeys ==>
      curve.scalarMult(ct.u, MinimalBytes(dsk.secKeys[i])) == curve.scalarMult(KeysUsed(pub)[i], MinimalBytes(r))
    ensures TestResult(curve, sha, ct, dsk) == Some(true)
  {
    var m := dsk.numKeys;
    var zp := curve.scalarBaseMult(MinimalBytes(z));
    var keys := KeysUsed(pub);
    var pads := Pads(curve, sha, keys, MinimalBytes(r), ct.u, zp);
    assert TestInRange(ct, dsk) by {
      if m > 0 {
        assert (m - 1) / 8 <= (|keys| + 7) / 8 - 1;
      }
    }
    forall i | 0 <= i < m
      ensures TestBit(curve, sha, ct, TestZ(curve, sha, ct), dsk.secKeys[i], i) == 1
    {
      assert ReadBit(ct.bitVec, i) == pads[i];
      PadCancels(HashH(curve, sha, ct.u, curve.scalarMult(ct.u, MinimalBytes(dsk.secKeys[i])), zp));
    }
  }

  /** A pad XORed with its complement is 1. */
  lemma PadCancels(h: byte)
    requires h == 0 || h == 1
    ensures h ^ (h ^ 0x01) == 1
  {
  }
}
