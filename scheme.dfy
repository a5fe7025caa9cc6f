/** The types both detection schemes share, and the elliptic-curve and hash
    primitives they call, which stay uninterpreted: a curve is its group order
    N, its field prime P and four operations given as functions. */
module Scheme {
  import opened Common

  /** A point (X, Y) of the curve. */
  datatype GroupElement = GroupElement(x: int, y: int)

  /** elliptic.Curve: the group order N, the field prime P, the group
      operations (scalars passed as big-endian bytes, as big.Int.Bytes gives
      them) and the uncompressed point encoding of section 2.3.3 of SEC 1. */
  datatype Curve = Curve(
    n: nat,
    p: nat,
    scalarBaseMult: seq<byte> -> GroupElement,
    scalarMult: (GroupElement, seq<byte>) -> GroupElement,
    add: (GroupElement, GroupElement) -> GroupElement,
    marshal: GroupElement -> seq<byte>)

  /** SHA-256 (FIPS 180-4): 32 bytes out. */
  type Sha256 = seq<byte> -> Digest

  /** PubKey: the number of keys and one public point per key. */
  datatype PubKey = PubKey(numKeys: int, pubKeys: seq<GroupElement>)
  {
    predicate Valid() { numKeys == |pubKeys| }
  }

  /** SecKey: the number of keys, one secret scalar per key, and the detection
      parameter prob (a uint32). */
  datatype SecKey = SecKey(numKeys: int, secKeys: seq<nat>, prob: nat)
  {
    predicate Valid() { numKeys == |secKeys| && prob < 0x1_0000_0000 }
  }

  /** big.Int.Bytes: the shortest big-endian encoding, empty for 0. */
  function MinimalBytes(x: nat): (r: seq<byte>)
    ensures x == 0 <==> r == []
    ensures r != [] ==> r[0] != 0
  {
    if x == 0 then []
    else
      var rest := MinimalBytes(x / 256);
      var last := (x % 256) as byte;
      assert x / 256 == 0 ==> last != 0 by {
        if x / 256 == 0 { ByteRoundTrip(x % 256); }
      }
      rest + [last]
  }

  /** SetBytes undoes Bytes. */
  lemma {:induction false} MinimalBytesRoundTrip(x: nat)
    ensures BigEndian(MinimalBytes(x)) == x
  {
    if x > 0 {
      var s := MinimalBytes(x);
      MinimalBytesRoundTrip(x / 256);
      ByteRoundTrip(x % 256);
      assert s[..|s| - 1] == MinimalBytes(x / 256);
    }
  }
}
