/** The fractional detection scheme: the recipient's 2·γ key pairs stand for
    the two labels of γ input wires of a comparison circuit. Flag garbles the
    circuit, hides each of those labels under a pad derived from the matching
    public key, and sends everything; Test unpads the labels its subkeys
    select and evaluates the circuit. */
module Fractional {
  import opened Common
  import opened Scheme
  import opened Sampling
  import opened Circuits
  import opened Garble
  import opened Evaluate
  import opened Packing
  import opened ElGamal

  // ---------------------------------------------------------------------------
  // Pads

  /** computeHashI: SHA-256("HashI" || A || B) over the encoded points. */
  function HashI(curve: Curve, sha: Sha256, one: GroupElement, two: GroupElement): Digest
  {
    sha(Ascii("HashI") + curve.marshal(one) + curve.marshal(two))
  }

  /** The pad a Diffie–Hellman share and a shared point give a label: the
      first 16 bytes of H_I(share, shared). */
  function KeyPad(curve: Curve, sha: Sha256, share: GroupElement, shared: GroupElement): (pad: Label)
    ensures forall i :: 0 <= i < 16 ==> pad[i] == HashI(curve, sha, share, shared)[i]
  {
    Prefix16(HashI(curve, sha, share, shared))
  }

  /** encryptLabel: the label XORed bytewise with H_I(myShare, sharedKey). */
  function EncryptLabel(curve: Curve, sha: Sha256, myShare: GroupElement, sharedKey: GroupElement, plain: Label): (enc: Label)
    ensures forall i :: 0 <= i < 16 ==> enc[i] == plain[i] ^ HashI(curve, sha, myShare, sharedKey)[i]
  {
    XorLabel(plain, KeyPad(curve, sha, myShare, sharedKey))
  }

  /** The same pad applied twice gives the label back. */
  lemma EncryptLabelInvolution(curve: Curve, sha: Sha256, myShare: GroupElement, sharedKey: GroupElement, plain: Label)
    ensures EncryptLabel(curve, sha, myShare, sharedKey, EncryptLabel(curve, sha, myShare, sharedKey, plain)) == plain
  {
    var pad := KeyPad(curve, sha, myShare, sharedKey);
    XorLabelCancel(plain, pad);
  }

  // ---------------------------------------------------------------------------
  // Keys

  /** KeyGen: only for γ = 8 or 24, the granularities with a circuit; then
      2·γ key pairs and prob = 0xFFFFFFFF. A failed sample gives nothing. */
  method KeyGen(curve: Curve, gamma: int, random: Reader) returns (r: Option<(SecKey, PubKey)>)
    modifies random
    ensures r.Some? <==> (gamma == 8 || gamma == 24) && SampleN(old(random.data), curve.n, 2 * gamma).Some?
    ensures r.Some? ==> KeyPair(curve, r.value.0, r.value.1)
    ensures r.Some? ==> r.value.0.numKeys == 2 * gamma && r.value.0.prob == 0xFFFF_FFFF
    ensures r.Some? ==> (r.value.0.secKeys, random.data) == SampleN(old(random.data), curve.n, 2 * gamma).value
  {
    if gamma != 8 && gamma != 24 {
      return None;
    }
    var n := 2 * gamma;
    var keys := KeyPairs(curve, n, random);
    if keys.None? {
      return None;
    }
    r := Some((SecKey(n, keys.value.0, 0xFFFF_FFFF), PubKey(n, keys.value.1)));
  }

  /** The pad of public key pk under the sender's scalar b and share b·P. */
  function StreamPad(curve: Curve, sha: Sha256, pk: GroupElement, b: nat, bG: GroupElement): Label
  {
    KeyPad(curve, sha, bG, curve.scalarMult(pk, MinimalBytes(b)))
  }

  /** generateAnonKeyStream: public key i pads slot i % 2 of wire pair i / 2.
      Nothing where Go panics: a negative number of wires, a key index past
      the public keys, or a pair index past the wires. */
  method AnonKeyStream(curve: Curve, sha: Sha256, pub: PubKey, b: nat, bG: GroupElement, numOfWires: int)
    returns (r: Option<seq<WireLabelSet>>)
    ensures r.Some? <==>
      numOfWires >= 0 && pub.numKeys <= |pub.pubKeys| && (pub.numKeys <= 0 || (pub.numKeys - 1) / 2 < numOfWires)
    ensures r.Some? ==> |r.value| == numOfWires
    ensures r.Some? ==> forall i :: 0 <= i < pub.numKeys ==>
      r.value[i / 2].Get(i % 2 == 1) == StreamPad(curve, sha, pub.pubKeys[i], b, bG)
  {
    if numOfWires < 0 {
      return None;
    }
    var allLabels := new WireLabelSet[numOfWires](_ => WireLabelSet(ZeroLabel(), ZeroLabel()));
    var i := 0;
    while i < pub.numKeys
      invariant 0 <= i <= if pub.numKeys < 0 then 0 else pub.numKeys
      invariant i <= |pub.pubKeys| && (i == 0 || (i - 1) / 2 < numOfWires)
      invariant forall k :: 0 <= k < i ==>
        allLabels[k / 2].Get(k % 2 == 1) == StreamPad(curve, sha, pub.pubKeys[k], b, bG)
    {
      if i >= |pub.pubKeys| || i / 2 >= numOfWires {
        return None;
      }
      var sharedKey := curve.scalarMult(pub.pubKeys[i], MinimalBytes(b));
      var labelValue := i % 2;
      var inputPair := i / 2;
      var byteStream := HashI(curve, sha, bG, sharedKey);
      var pad := Prefix16(byteStream);
      var old_ := allLabels[inputPair];
      allLabels[inputPair] := if labelValue == 0 then WireLabelSet(pad, old_.one) else WireLabelSet(old_.zero, pad);
      PairSlots(i);
      i := i + 1;
    }
    r := Some(allLabels[..]);
  }

  /** Two key indices share a pair only when they are its two slots. */
  lemma PairSlots(i: nat)
    ensures forall k :: 0 <= k < i && k / 2 == i / 2 ==> k % 2 != i % 2
  {
  }

  /** The key of subkey i that Extract selects for numerator x: slot bit i of
      x in pair i, i.e. index 2·i + bit_i(x). */
  function SelectedIndex(x: nat, i: nat): nat
  {
    2 * i + (if Common.Bit(x, i) then 1 else 0)
  }

  /** Extract: for 0 <= numerator < 2^(numKeys / 2), numKeys / 2 subkeys, the
      i-th taken from pair i at the slot of bit i of the numerator, and
      prob = uint32(numerator). A numerator out of range gives nothing, and so
      does a selected index past the secret keys (Go panics). */
  method Extract(numerator: int, priv: SecKey) returns (r: Option<SecKey>)
    ensures var mod := GoDiv(priv.numKeys, 2);
      r.Some? ==> mod >= 0 && 0 <= numerator < Pow2(mod)
    ensures var mod := GoDiv(priv.numKeys, 2);
      priv.Valid() ==> (r.Some? <==> mod >= 0 && 0 <= numerator < Pow2(mod))
    ensures var mod := GoDiv(priv.numKeys, 2);
      r.Some? ==>
        && r.value.numKeys == mod && |r.value.secKeys| == mod && r.value.prob == Uint32(numerator)
        && forall i :: 0 <= i < mod ==>
             SelectedIndex(numerator, i) < |priv.secKeys| && r.value.secKeys[i] == priv.secKeys[SelectedIndex(numerator, i)]
  {
    var mod := GoDiv(priv.numKeys, 2);
    if mod < 0 || numerator < 0 || numerator >= Pow2(mod) {
      return None;
    }
    var secKeys := new nat[mod];
    var i := 0;
    while i < mod
      invariant 0 <= i <= mod
      invariant forall k :: 0 <= k < i ==>
        SelectedIndex(numerator, k) < |priv.secKeys| && secKeys[k] == priv.secKeys[SelectedIndex(numerator, k)]
    {
      var bitSelector := (numerator / Pow2(i)) % 2;
      var index := if bitSelector == 1 then 2 * i + 1 else 2 * i;
      assert index == SelectedIndex(numerator, i);
      if index >= |priv.secKeys| {
        assert !priv.Valid() by {
          assert SelectedIndex(numerator, i) <= 2 * mod - 1;
        }
        return None;
      }
      secKeys[i] := priv.secKeys[index];
      i := i + 1;
    }
    r := Some(SecKey(mod, secKeys[..], Uint32(numerator)));
  }

  /** The slot Test decrypts for subkey idx: bit idx of the uint32 prob
      (a shift by 32 or more gives 0). */
  function TestSlot(prob: nat, idx: nat): bool
  {
    idx < 32 && Common.Bit(prob, idx)
  }

  /** The key Extract hands out for subkey idx sits in pair idx, at the slot
      Test later decrypts with prob = uint32(numerator): the pad Flag put on
      that slot is the one the subkey recomputes. */
  lemma SlotAgreement(numerator: nat, idx: nat)
    requires numerator < 0x1_0000_0000
    ensures SelectedIndex(numerator, idx) / 2 == idx
    ensures (SelectedIndex(numerator, idx) % 2 == 1) == TestSlot(Uint32(numerator), idx)
  {
    if idx >= 32 {
      Pow2Mono(32, idx);
      assert Pow2(32) == 0x1_0000_0000 by { Pow2Of32(); }
      assert numerator / Pow2(idx) == 0;
    }
  }

  lemma {:induction false} Pow2Mono(a: nat, b: nat)
    requires a <= b
    ensures Pow2(a) <= Pow2(b)
  {
    if a < b {
      Pow2Mono(a, b - 1);
    }
  }

  lemma Pow2Of32()
    ensures Pow2(32) == 0x1_0000_0000
  {
    Pow2Add(16, 16);
    Pow2Add(8, 8);
    Pow2Add(4, 4);
  }

  // ---------------------------------------------------------------------------
  // The Diffie–Hellman share codec

  /** The sign byte of a coordinate: 1 when negative, else 0. */
  function SignByte(v: int): (s: byte)
    ensures s == 1 <==> v < 0
  {
    if v < 0 then 1 else 0
  }

  function Magnitude(v: int): (m: nat)
    ensures m == v || m == -v
  {
    if v < 0 then -v else v
  }

  /** One coordinate of writeCompactDHShare: its sign byte, then its
      magnitude in exactly len bytes (FillBytes panics when it does not fit). */
  function EncodeCoord(v: int, len: nat): (r: Option<seq<byte>>)
    ensures r.Some? <==> Magnitude(v) < Pow256(len)
    ensures r.Some? ==> |r.value| == 1 + len && r.value[0] == SignByte(v) && BigEndian(r.value[1..]) == Magnitude(v)
  {
    if Magnitude(v) < Pow256(len) then
      BigEndianFillBytes(Magnitude(v), len);
      assert ([SignByte(v)] + FillBytes(Magnitude(v), len))[1..] == FillBytes(Magnitude(v), len);
      Some([SignByte(v)] + FillBytes(Magnitude(v), len))
    else None
  }

  /** writeCompactDHShare: both coordinates, with len = P.BitLen(), a bit
      count used as a byte count. */
  function EncodeShare(p: nat, g: GroupElement): (r: Option<seq<byte>>)
    ensures r.Some? <==> Magnitude(g.x) < Pow256(BitLen(p)) && Magnitude(g.y) < Pow256(BitLen(p))
    ensures r.Some? ==> |r.value| == 2 + 2 * BitLen(p)
  {
    var len := BitLen(p);
    match (EncodeCoord(g.x, len), EncodeCoord(g.y, len))
    case (Some(xs), Some(ys)) => Some(xs + ys)
    case _ => None
  }

  /** bytes.Buffer.ReadByte: the first byte, or EOF on an empty buffer. */
  function ReadByte(data: seq<byte>): (r: Option<(byte, seq<byte>)>)
    ensures r.None? <==> data == []
    ensures r.Some? ==> [r.value.0] + r.value.1 == data
  {
    if data == [] then None else Some((data[0], data[1..]))
  }

  /** bytes.Buffer.Read into a zeroed n-byte slice: EOF on an empty buffer
      when n > 0; otherwise the first min(n, len) bytes, the rest of the slice
      left zero. A short read is not an error. */
  function Read(data: seq<byte>, n: nat): (r: Option<(seq<byte>, seq<byte>)>)
    ensures r.None? <==> data == [] && n > 0
    ensures r.Some? ==> |r.value.0| == n
    ensures r.Some? && n <= |data| ==> r.value.0 + r.value.1 == data
    ensures r.Some? && n > |data| ==> r.value.0 == data + Zeros(n - |data|) && r.value.1 == []
  {
    if data == [] && n > 0 then None
    else if n <= |data| then Some((data[..n], data[n..]))
    else Some((data + Zeros(n - |data|), []))
  }

  /** One coordinate of decodeCompactDHShare: the sign byte, then len bytes
      of magnitude, negated when the sign byte is 1. */
  function DecodeCoord(data: seq<byte>, len: nat): Option<(int, seq<byte>)>
  {
    match ReadByte(data)
    case None => None
    case Some((sign, rest)) =>
      match Read(rest, len)
      case None => None
      case Some((mag, rest')) =>
        var v: int := BigEndian(mag);
        Some((if sign == 1 then -v else v, rest'))
  }

  /** decodeCompactDHShare: both coordinates and what follows them. */
  function DecodeShare(p: nat, data: seq<byte>): Option<(GroupElement, seq<byte>)>
  {
    var len := BitLen(p);
    match DecodeCoord(data, len)
    case None => None
    case Some((x, rest)) =>
      match DecodeCoord(rest, len)
      case None => None
      case Some((y, rest')) => Some((GroupElement(x, y), rest'))
  }

  /** Decoding undoes encoding, whatever follows the share. */
  lemma ShareRoundTrip(p: nat, g: GroupElement, rest: seq<byte>)
    requires EncodeShare(p, g).Some?
    ensures DecodeShare(p, EncodeShare(p, g).value + rest) == Some((g, rest))
  {
    var len := BitLen(p);
    var xs, ys := EncodeCoord(g.x, len).value, EncodeCoord(g.y, len).value;
    assert EncodeShare(p, g).value + rest == xs + (ys + rest);
    CoordRoundTrip(g.x, len, ys + rest);
    CoordRoundTrip(g.y, len, rest);
  }

  lemma CoordRoundTrip(v: int, len: nat, rest: seq<byte>)
    requires EncodeCoord(v, len).Some?
    ensures DecodeCoord(EncodeCoord(v, len).value + rest, len) == Some((v, rest))
  {
    var e := EncodeCoord(v, len).value;
    var data := e + rest;
    assert data[0] == SignByte(v);
    assert data[1..] == e[1..] + rest;
    assert Read(e[1..] + rest, len) == Some((e[1..], rest));
  }

  // ---------------------------------------------------------------------------
  // Flag

  /** The pads of the first mod wire pairs: pair i gets the pads of public
      keys 2·i and 2·i + 1. */
  function PadPairs(curve: Curve, sha: Sha256, pk: PubKey, b: nat, bG: GroupElement, mod: nat): (pads: seq<WireLabelSet>)
    requires 2 * mod <= |pk.pubKeys|
    ensures |pads| == mod
    ensures forall i :: 0 <= i < mod ==>
      pads[i].zero == StreamPad(curve, sha, pk.pubKeys[2 * i], b, bG) && pads[i].one == StreamPad(curve, sha, pk.pubKeys[2 * i + 1], b, bG)
  {
    seq(mod, i requires 0 <= i < mod =>
      WireLabelSet(StreamPad(curve, sha, pk.pubKeys[2 * i], b, bG), StreamPad(curve, sha, pk.pubKeys[2 * i + 1], b, bG)))
  }

  /** With mod = numKeys / 2 wire pairs, generateAnonKeyStream fills exactly
      the pads of PadPairs. */
  lemma AnonKeyStreamIsPadPairs(curve: Curve, sha: Sha256, pk: PubKey, b: nat, bG: GroupElement, pads: seq<WireLabelSet>)
    requires GoDiv(pk.numKeys, 2) >= 0 && pk.numKeys <= |pk.pubKeys|
    requires pk.numKeys <= 0 || (pk.numKeys - 1) / 2 < GoDiv(pk.numKeys, 2)
    requires |pads| == GoDiv(pk.numKeys, 2)
    requires forall i :: 0 <= i < pk.numKeys ==> pads[i / 2].Get(i % 2 == 1) == StreamPad(curve, sha, pk.pubKeys[i], b, bG)
    ensures 2 * |pads| <= |pk.pubKeys|
    ensures pads == PadPairs(curve, sha, pk, b, bG, |pads|)
  {
    var mod := |pads|;
    var expected := PadPairs(curve, sha, pk, b, bG, mod);
    forall i | 0 <= i < mod
      ensures pads[i] == expected[i]
    {
      assert (2 * i) / 2 == i && (2 * i + 1) / 2 == i;
      assert pads[(2 * i) / 2].Get((2 * i) % 2 == 1) == StreamPad(curve, sha, pk.pubKeys[2 * i], b, bG);
      assert pads[(2 * i + 1) / 2].Get((2 * i + 1) % 2 == 1) == StreamPad(curve, sha, pk.pubKeys[2 * i + 1], b, bG);
    }
  }

  /** A wire's pair with both labels XORed with their pads. */
  function MaskPair(l: WireLabelSet, pad: WireLabelSet): WireLabelSet
  {
    WireLabelSet(XorLabel(l.zero, pad.zero), XorLabel(l.one, pad.one))
  }

  /** The wire labels as Flag leaves them: the pairs of wires start ..
      start + |pads| - 1 masked, every other pair as garbled. */
  function MaskLabels(w: seq<WireLabelSet>, pads: seq<WireLabelSet>, start: nat): (m: seq<WireLabelSet>)
    requires start + |pads| <= |w|
    ensures |m| == |w|
    ensures forall k :: 0 <= k < |w| ==> m[k] == if start <= k < start + |pads| then MaskPair(w[k], pads[k - start]) else w[k]
  {
    seq(|w|, k requires 0 <= k < |w| => if start <= k < start + |pads| then MaskPair(w[k], pads[k - start]) else w[k])
  }

  /** For each of the first count wires, its label for bit i of x. */
  function ChosenLabels(w: seq<WireLabelSet>, x: nat, count: nat): (r: seq<Label>)
    requires count <= |w|
    ensures |r| == count && forall i :: 0 <= i < count ==> r[i] == w[i].Get(Common.Bit(x, i))
  {
    seq(count, i requires 0 <= i < count => w[i].Get(Common.Bit(x, i)))
  }

  /** When Flag produces a transcript: a scalar is sampled, the circuit can be
      garbled, the share fits its encoding, the key stream has one pair per
      recipient wire, there are that many input wires, and 16 random bytes
      remain to read. */
  predicate FlagSucceeds(curve: Curve, pk: PubKey, c: Circuit, data: seq<byte>)
  {
    var s := SampleFrom(data, curve.n);
    && s.0.Some?
    && c.ValidCircuit() && XorArity(c) && AllGarbleable(c)
    && WritesTranscript(curve, pk, c, s.0.value)
    && |s.1| >= 16
  }

  /** The transcript of Flag for random bytes data and garbled labels w. */
  function FlagTranscript(curve: Curve, sha: Sha256, pk: PubKey, c: Circuit, data: seq<byte>,
                          w: seq<WireLabelSet>, tables: seq<seq<Label>>): seq<byte>
    requires FlagSucceeds(curve, pk, c, data) && |w| == |c.gates|
  {
    var s := SampleFrom(data, curve.n);
    Transcript(curve, sha, pk, c, s.0.value, BigEndian(s.1[..16]), w, tables)
  }

  /** When the writing half of Flag succeeds: the share of b fits its
      encoding, the key stream has one pair per recipient wire, and there are
      that many input wires. */
  predicate WritesTranscript(curve: Curve, pk: PubKey, c: Circuit, b: nat)
  {
    var mod := GoDiv(pk.numKeys, 2);
    && EncodeShare(curve.p, curve.scalarBaseMult(MinimalBytes(b))).Some?
    && 0 <= mod <= c.numInputWires
    && pk.numKeys <= |pk.pubKeys| && (pk.numKeys <= 0 || (pk.numKeys - 1) / 2 < mod)
  }

  /** The transcript for sender scalar b and random number x: the share
      b·P, the masked pairs of the last mod input wires (label 0 then label 1),
      the labels of the other input wires chosen by the bits of x, and the
      packed circuit, which carries the masked labels too. */
  function Transcript(curve: Curve, sha: Sha256, pk: PubKey, c: Circuit, b: nat, x: nat,
                      w: seq<WireLabelSet>, tables: seq<seq<Label>>): seq<byte>
    requires WritesTranscript(curve, pk, c, b) && c.numInputWires <= |w|
  {
    var mod := GoDiv(pk.numKeys, 2);
    var bG := curve.scalarBaseMult(MinimalBytes(b));
    var start := c.numInputWires - mod;
    var masked := Masked(curve, sha, pk, c, b, w);
    EncodeShare(curve.p, bG).value
      + Flat(PairRows(masked, start, mod))
      + Flat(ChosenLabels(masked, x, start))
      + Packed(masked, c.numInputWires, tables)
  }

  /** The wire labels Flag sends for sender scalar b: the pairs of the last mod
      input wires masked with the pads of the public keys. */
  function Masked(curve: Curve, sha: Sha256, pk: PubKey, c: Circuit, b: nat, w: seq<WireLabelSet>): (m: seq<WireLabelSet>)
    requires WritesTranscript(curve, pk, c, b) && c.numInputWires <= |w|
    ensures |m| == |w|
  {
    var mod := GoDiv(pk.numKeys, 2);
    var bG := curve.scalarBaseMult(MinimalBytes(b));
    MaskLabels(w, PadPairs(curve, sha, pk, b, bG, mod), c.numInputWires - mod)
  }

  /** Flag: draw the share b·P, garble the circuit, then write the
      transcript. w, tables and delta are the garbling. */
  method Flag(curve: Curve, sha: Sha256, h: Hash, random: Reader, rng: Rng, pk: PubKey, c: Circuit)
    returns (r: Option<seq<byte>>, ghost w: seq<WireLabelSet>, ghost tables: seq<seq<Label>>, ghost delta: Label)
    modifies random, rng
    ensures r.Some? <==> FlagSucceeds(curve, pk, c, old(random.data))
    ensures r.Some? ==> WellGarbled(c, w, tables, delta, h)
    ensures r.Some? ==> r.value == FlagTranscript(curve, sha, pk, c, old(random.data), w, tables)
  {
    w, tables, delta := [], [], ZeroLabel();
    var kp := KeyGenSingle(curve, random);
    if kp.None? {
      return None, w, tables, delta;
    }
    var b, bG := kp.value.0, kp.value.1;
    var garble := new GarbledCircuit();
    var success := garble.GarbleCircuit(c, rng, h);
    if !success {
      return None, w, tables, delta;
    }
    w, tables, delta := garble.wireLabels, garble.garbledGates, garble.freeXorDelta;
    r := WriteTranscript(curve, sha, pk, c, garble, b, bG, random);
  }

  /** The writing half of Flag, after garbling: the share, the masked
      recipient labels, 16 random bytes read as a number x, the sender's
      labels for the bits of x, and the packed circuit. */
  method WriteTranscript(curve: Curve, sha: Sha256, pk: PubKey, c: Circuit, garble: GarbledCircuit,
                         b: nat, bG: GroupElement, random: Reader) returns (r: Option<seq<byte>>)
    requires c.ValidCircuit() && garble.numInputWires == c.numInputWires && |garble.wireLabels| == |c.gates|
    requires bG == curve.scalarBaseMult(MinimalBytes(b))
    modifies garble, random
    ensures r.Some? <==> WritesTranscript(curve, pk, c, b) && |old(random.data)| >= 16
    ensures r.Some? ==> garble.garbledGates == old(garble.garbledGates)
    ensures r.Some? ==>
      r.value == Transcript(curve, sha, pk, c, b, BigEndian(old(random.data)[..16]), old(garble.wireLabels), old(garble.garbledGates))
  {
    var mod := GoDiv(pk.numKeys, 2);
    var share := EncodeShare(curve.p, bG);
    if share.None? {
      return None;
    }
    var inputPads := AnonKeyStream(curve, sha, pk, b, bG, mod);
    if inputPads.None? {
      return None;
    }
    AnonKeyStreamIsPadPairs(curve, sha, pk, b, bG, inputPads.value);
    var idx := garble.numInputWires - mod;
    if idx < 0 {
      return None;
    }
    var masked := MaskRecipientLabels(garble, inputPads.value, idx, mod);
    var ok, chosen, packed := WriteChosenAndPacked(garble, random, idx);
    if !ok {
      return None;
    }
    r := Some(share.value + masked + chosen + packed);
  }

  /** The end of Flag: 16 random bytes as a big-endian number choose the
      labels of the first start input wires, then the packed circuit. */
  method WriteChosenAndPacked(garble: GarbledCircuit, random: Reader, start: nat)
    returns (ok: bool, chosen: seq<byte>, packed: seq<byte>)
    requires start <= garble.numInputWires <= |garble.wireLabels|
    modifies random
    ensures ok <==> |old(random.data)| >= 16
    ensures ok ==> chosen == Flat(ChosenLabels(garble.wireLabels, BigEndian(old(random.data)[..16]), start))
    ensures ok ==> packed == Packed(garble.wireLabels, garble.numInputWires, garble.garbledGates)
  {
    chosen, packed := [], [];
    var randomInput := new byte[16];
    ok := random.ReadFull(randomInput);
    if !ok {
      return;
    }
    var randomNumber := BigEndian(randomInput[..]);
    chosen := WriteChosenLabels(garble, randomNumber, start);
    var r := PackedMarshal(garble);
    packed := r.value;
  }

  /** The nested loop of Flag over recipient wires and label slots: XOR each
      label with its pad in place and write it out. */
  method MaskRecipientLabels(garble: GarbledCircuit, pads: seq<WireLabelSet>, start: nat, mod: nat) returns (out: seq<byte>)
    requires start + mod <= |garble.wireLabels| && |pads| == mod
    modifies garble
    ensures garble.wireLabels == MaskLabels(old(garble.wireLabels), pads, start)
    ensures out == Flat(PairRows(garble.wireLabels, start, mod))
    ensures garble.garbledGates == old(garble.garbledGates) && garble.numInputWires == old(garble.numInputWires)
    ensures garble.numOutputWires == old(garble.numOutputWires) && garble.freeXorDelta == old(garble.freeXorDelta)
  {
    var labels;
    labels, out := MaskPairs(garble.wireLabels, pads, start, mod);
    garble.wireLabels := labels;
  }

  /** The loop itself, on the label slice: pair start + i is XORed with pad
      pair i, slot 0 then slot 1, and written out. */
  method MaskPairs(w: seq<WireLabelSet>, pads: seq<WireLabelSet>, start: nat, mod: nat)
    returns (labels: seq<WireLabelSet>, out: seq<byte>)
    requires start + mod <= |w| && |pads| == mod
    ensures labels == MaskLabels(w, pads, start)
    ensures out == Flat(PairRows(labels, start, mod))
  {
    labels := w;
    out := [];
    for i := 0 to mod
      invariant labels == MaskLabels(w, pads[..i], start)
      invariant out == Flat(PairRows(labels, start, i))
    {
      ghost var before, written := labels, out;
      var pair := labels[start + i];
      // j = 0, then j = 1
      var cipher0 := XorLabel(pair.zero, pads[i].zero);
      var cipher1 := XorLabel(pair.one, pads[i].one);
      labels := labels[start + i := WireLabelSet(cipher0, cipher1)];
      out := out + cipher0 + cipher1;
      MaskStep(w, pads, start, i, before, labels);
      RowsStep(before, labels, start, i, written, out);
    }
    assert pads[..mod] == pads;
  }

  /** One pass of the loop of MaskPairs masks one more pair. */
  lemma MaskStep(w0: seq<WireLabelSet>, pads: seq<WireLabelSet>, start: nat, i: nat,
                 before: seq<WireLabelSet>, after: seq<WireLabelSet>)
    requires i < |pads| && start + |pads| <= |w0|
    requires before == MaskLabels(w0, pads[..i], start)
    requires after == before[start + i := MaskPair(w0[start + i], pads[i])]
    ensures after == MaskLabels(w0, pads[..i + 1], start)
  {
    var m := MaskLabels(w0, pads[..i + 1], start);
    forall k | 0 <= k < |m|
      ensures after[k] == m[k]
    {
      if start <= k < start + i {
        assert pads[..i][k - start] == pads[..i + 1][k - start];
      }
    }
  }

  /** One pass of the loop of MaskPairs writes the rows of one more pair. */
  lemma RowsStep(before: seq<WireLabelSet>, after: seq<WireLabelSet>, start: nat, i: nat, written: seq<byte>, out: seq<byte>)
    requires start + i < |before| == |after| && after == before[start + i := after[start + i]]
    requires written == Flat(PairRows(before, start, i))
    requires out == written + after[start + i].zero + after[start + i].one
    ensures out == Flat(PairRows(after, start, i + 1))
  {
    var rows, l0, l1 := PairRows(before, start, i), after[start + i].zero, after[start + i].one;
    PairRowsAgree(after, before, start, i);
    FlatSnoc(rows, l0);
    FlatSnoc(rows + [l0], l1);
    assert rows + [l0] + [l1] == rows + [l0, l1];
  }

  /** Label 0 then label 1 of each of the n wires from start on. */
  function PairRows(w: seq<WireLabelSet>, start: nat, n: nat): (r: seq<Label>)
    requires start + n <= |w|
    ensures |r| == 2 * n
  {
    if n == 0 then [] else PairRows(w, start, n - 1) + [w[start + n - 1].zero, w[start + n - 1].one]
  }

  /** Rows 2k and 2k + 1 are label 0 and label 1 of wire start + k. */
  lemma {:induction false} PairRowsAt(w: seq<WireLabelSet>, start: nat, n: nat, k: nat)
    requires start + n <= |w| && k < n
    ensures PairRows(w, start, n)[2 * k] == w[start + k].zero
    ensures PairRows(w, start, n)[2 * k + 1] == w[start + k].one
  {
    if k < n - 1 {
      PairRowsAt(w, start, n - 1, k);
    }
  }

  /** The rows of n pairs from start on depend on those pairs only. */
  lemma {:induction false} PairRowsAgree(a: seq<WireLabelSet>, b: seq<WireLabelSet>, start: nat, n: nat)
    requires start + n <= |a| && start + n <= |b|
    requires forall k :: start <= k < start + n ==> a[k] == b[k]
    ensures PairRows(a, start, n) == PairRows(b, start, n)
  {
    if n > 0 {
      PairRowsAgree(a, b, start, n - 1);
    }
  }

  /** The loop of Flag over the sender's input wires: label bit i of the
      random number for wire i. */
  method WriteChosenLabels(garble: GarbledCircuit, x: nat, count: int) returns (out: seq<byte>)
    requires count <= |garble.wireLabels|
    ensures out == Flat(ChosenLabels(garble.wireLabels, x, if count < 0 then 0 else count))
  {
    out := [];
    var i := 0;
    while i < count
      invariant 0 <= i <= if count < 0 then 0 else count
      invariant out == Flat(ChosenLabels(garble.wireLabels, x, i))
    {
      var bit := Common.Bit(x, i);
      FlatSnoc(ChosenLabels(garble.wireLabels, x, i), garble.wireLabels[i].Get(bit));
      assert ChosenLabels(garble.wireLabels, x, i + 1) == ChosenLabels(garble.wireLabels, x, i) + [garble.wireLabels[i].Get(bit)];
      out := out + garble.wireLabels[i].Get(bit);
      i := i + 1;
    }
  }

  // ---------------------------------------------------------------------------
  // Test

  /** One label read off the ciphertext buffer: bytes.Buffer.Read into a fresh
      16-byte slice (a short read leaves zeros, an empty buffer is EOF). */
  function ReadLabel(data: seq<byte>): (r: Option<(Label, seq<byte>)>)
    ensures r.None? <==> data == []
    ensures r.Some? && 16 <= |data| ==> r.value.0 + r.value.1 == data
  {
    match Read(data, 16)
    case None => None
    case Some((l, rest)) => var plain: Label := l; Some((plain, rest))
  }

  /** n labels read one after the other, and the bytes after them. */
  function ReadLabels(data: seq<byte>, n: nat): (r: Option<(seq<Label>, seq<byte>)>)
    ensures r.Some? ==> |r.value.0| == n
  {
    if n == 0 then Some(([], data))
    else
      match ReadLabels(data, n - 1)
      case None => None
      case Some((labels, rest)) =>
        match ReadLabel(rest)
        case None => None
        case Some((l, rest')) => Some((labels + [l], rest'))
  }

  /** Reading back written labels gives them and whatever followed them. */
  lemma {:induction false} ReadLabelsFlat(labels: seq<Label>, rest: seq<byte>)
    ensures ReadLabels(Flat(labels) + rest, |labels|) == Some((labels, rest))
  {
    if labels != [] {
      var n := |labels|;
      var init, last := labels[..n - 1], labels[n - 1];
      assert labels == init + [last];
      FlatSnoc(init, last);
      assert Flat(labels) + rest == Flat(init) + (last + rest);
      ReadLabelsFlat(init, last + rest);
      assert (last + rest)[..16] == last && (last + rest)[16..] == rest;
      assert ReadLabel(last + rest) == Some((last, rest));
      assert ReadLabels(Flat(labels) + rest, n - 1) == Some((init, last + rest));
    } else {
      assert Flat(labels) + rest == rest;
    }
  }

  /** Once a read fails, reading more labels fails too. */
  lemma {:induction false} ReadLabelsFails(data: seq<byte>, n: nat, m: nat)
    requires n <= m && ReadLabels(data, n).None?
    ensures ReadLabels(data, m).None?
  {
    if n < m {
      ReadLabelsFails(data, n, m - 1);
    }
  }

  /** Labels 2·i and 2·i + 1 as the pair of wire i. */
  function ModPairs(labels: seq<Label>, mod: nat): (pairs: seq<WireLabelSet>)
    requires |labels| == 2 * mod
    ensures |pairs| == mod
    ensures forall i :: 0 <= i < mod ==> pairs[i] == WireLabelSet(labels[2 * i], labels[2 * i + 1])
  {
    seq(mod, i requires 0 <= i < mod => WireLabelSet(labels[2 * i], labels[2 * i + 1]))
  }

  /** The label the recipient recovers for its subkey idx: the pad of the
      sender's share and the point the subkey shares with it, XORed onto the
      slot the idx-th bit of prob selects. */
  function RecipientLabel(curve: Curve, sha: Sha256, other: GroupElement, priv: SecKey,
                          pairs: seq<WireLabelSet>, idx: nat): Label
    requires idx < |pairs| && idx < |priv.secKeys|
  {
    var shared := curve.scalarMult(other, MinimalBytes(priv.secKeys[idx]));
    XorLabel(KeyPad(curve, sha, other, shared), pairs[idx].Get(TestSlot(priv.prob, idx)))
  }

  function RecipientLabels(curve: Curve, sha: Sha256, other: GroupElement, priv: SecKey,
                           pairs: seq<WireLabelSet>): (r: seq<Label>)
    requires |pairs| <= |priv.secKeys|
    ensures |r| == |pairs|
    ensures forall idx :: 0 <= idx < |pairs| ==> r[idx] == RecipientLabel(curve, sha, other, priv, pairs, idx)
  {
    seq(|pairs|, idx requires 0 <= idx < |pairs| => RecipientLabel(curve, sha, other, priv, pairs, idx))
  }

  /** The input labels Test assembles and the packed circuit after them: the
      share, then 2·mod labels, then the sender's numIn - mod labels; the
      sender's labels come first, the recovered ones last. Nothing where Go
      panics: a read from an empty buffer, fewer input wires than mod, or
      fewer secret keys than mod. */
  function TestLabels(curve: Curve, sha: Sha256, ct: seq<byte>, priv: SecKey, c: Circuit)
    : (r: Option<(seq<Label>, seq<byte>)>)
    requires priv.numKeys >= 0
    ensures r.Some? ==> |r.value.0| == c.numInputWires
  {
    var mod := priv.numKeys;
    match DecodeShare(curve.p, ct)
    case None => None
    case Some((other, rest)) =>
      match ReadLabels(rest, 2 * mod)
      case None => None
      case Some((modLabels, rest')) =>
        if c.numInputWires < mod || |priv.secKeys| < mod then None
        else
          match ReadLabels(rest', c.numInputWires - mod)
          case None => None
          case Some((own, rest'')) =>
            Some((own + RecipientLabels(curve, sha, other, priv, ModPairs(modLabels, mod)), rest''))
  }

  /** The value of a string of binary digits, most significant first. */
  function BinaryValue(s: string): nat
  {
    if s == [] then 0
    else (if s[0] == '1' then Pow2(|s| - 1) else 0) + BinaryValue(s[1..])
  }

  /** The value of a sequence of bits, bit i of weight 2^i. */
  function BitsValue(bits: seq<bool>): nat
  {
    if bits == [] then 0
    else BitsValue(bits[..|bits| - 1]) + (if bits[|bits| - 1] then Pow2(|bits| - 1) else 0)
  }

  function LsbBits(labels: seq<Label>): (bits: seq<bool>)
    ensures |bits| == |labels| && forall i :: 0 <= i < |labels| ==> bits[i] == Lsb(labels[i])
  {
    seq(|labels|, i requires 0 <= i < |labels| => Lsb(labels[i]))
  }

  /** strconv.ParseUint(s, 2, bitSize): bit size 0 means 64, a size outside
      0..64 is an error, and so are an empty string, a character other than
      0 and 1, and a value of bitSize bits or more. */
  function ParseUintBase2(s: string, bitSize: int): (r: Option<nat>)
    ensures r.Some? ==> s != [] && r.value == BinaryValue(s)
    ensures r.Some? ==> 0 <= bitSize <= 64 && r.value < Pow2(if bitSize == 0 then 64 else bitSize)
  {
    var bits := if bitSize == 0 then 64 else bitSize;
    if bits < 0 || bits > 64 then None
    else if s == [] || exists i :: 0 <= i < |s| && s[i] != '0' && s[i] != '1' then None
    else if BinaryValue(s) >= Pow2(bits) then None
    else Some(BinaryValue(s))
  }

  /** The decoded output string holds binary digits only, and its value is
      the number whose bit i is the permute bit of output label i. */
  lemma {:induction false} DecodedValue(outs: seq<Label>)
    ensures forall j :: 0 <= j < |outs| ==> DecodePlaintextOutputLabels(outs)[j] in {'0', '1'}
    ensures BinaryValue(DecodePlaintextOutputLabels(outs)) == BitsValue(LsbBits(outs))
  {
    var s := DecodePlaintextOutputLabels(outs);
    forall j | 0 <= j < |outs|
      ensures s[j] in {'0', '1'}
    {
      assert s[|s| - 1 - (|outs| - 1 - j)] == BitChar(Lsb(outs[|outs| - 1 - j]));
    }
    if outs != [] {
      var n := |outs|;
      DecodedValue(outs[..n - 1]);
      assert s[1..] == DecodePlaintextOutputLabels(outs[..n - 1]);
      assert LsbBits(outs)[..n - 1] == LsbBits(outs[..n - 1]);
    }
  }

  /** Parsing the decoded output with mod bits gives that number, or fails
      when it needs more than mod bits. */
  lemma ParseDecoded(outs: seq<Label>, mod: nat)
    requires |outs| >= 1 && 1 <= mod <= 64
    ensures ParseUintBase2(DecodePlaintextOutputLabels(outs), mod) ==
      if BitsValue(LsbBits(outs)) < Pow2(mod) then Some(BitsValue(LsbBits(outs))) else None
  {
    DecodedValue(outs);
    var s := DecodePlaintextOutputLabels(outs);
    assert !exists i :: 0 <= i < |s| && s[i] != '0' && s[i] != '1' by {
      forall i | 0 <= i < |s| ensures s[i] == '0' || s[i] == '1' {
        assert s[i] in {'0', '1'};
      }
    }
  }

  /** Whether every output of the circuit evaluates under tables and labels. */
  predicate Evaluates(c: Circuit, tables: seq<seq<Label>>, labels: seq<Label>, h: Hash)
    requires c.ValidCircuit()
  {
    && |labels| == c.numInputWires && c.numOutputWires >= 1
    && forall i :: 0 <= i < c.numOutputWires ==> GarbledValue(c, tables, labels, h, c.GetOutputGate(i)).Some?
  }

  /** The output labels of an evaluation that succeeds. */
  function Outputs(c: Circuit, tables: seq<seq<Label>>, labels: seq<Label>, h: Hash): (outs: seq<Label>)
    requires c.ValidCircuit() && Evaluates(c, tables, labels, h)
    ensures |outs| == c.numOutputWires
    ensures forall i :: 0 <= i < c.numOutputWires ==> outs[i] == GarbledValue(c, tables, labels, h, c.GetOutputGate(i)).value
  {
    seq(c.numOutputWires, i requires 0 <= i < c.numOutputWires => GarbledValue(c, tables, labels, h, c.GetOutputGate(i)).value)
  }

  /** What Test answers: false for a key of the wrong size or an evaluation
      that fails; nothing where Go panics (a malformed ciphertext, an output of
      mod bits or more); otherwise whether the low 32 bits of the output
      number are below prob. */
  function TestOutcome(curve: Curve, sha: Sha256, h: Hash, ct: seq<byte>, priv: SecKey, c: Circuit): Option<bool>
    requires c.ValidCircuit()
  {
    var mod := priv.numKeys;
    if mod != 8 && mod != 24 then Some(false)
    else
      match TestLabels(curve, sha, ct, priv, c)
      case None => None
      case Some((labels, rest)) => EvaluationOutcome(c, h, labels, rest, mod, priv.prob)
  }

  /** The second half of Test: unpack the circuit from rest, evaluate it on
      the labels, and compare the output number with prob. */
  function EvaluationOutcome(c: Circuit, h: Hash, labels: seq<Label>, rest: seq<byte>, mod: nat, prob: nat): Option<bool>
    requires c.ValidCircuit()
  {
    match Unpack(rest, c)
    case None => None
    case Some(u) =>
      if !Evaluates(c, u.tables, labels, h) then Some(false)
      else Compare(BitsValue(LsbBits(Outputs(c, u.tables, labels, h))), mod, prob)
  }

  /** The last step of Test: parsing fails on a number of mod bits or more,
      else the low 32 bits of the number are compared with prob. */
  function Compare(v: nat, mod: nat, prob: nat): (r: Option<bool>)
    ensures r.None? <==> v >= Pow2(mod)
    ensures r == Some(true) ==> v % 0x1_0000_0000 < prob
    ensures r.Some? ==> (r.value <==> Uint32(v) < prob)
  {
    if v >= Pow2(mod) then None else Some(Uint32(v) < prob)
  }

  /** A key whose prob is 0 never accepts a ciphertext. */
  lemma ZeroProbRejects(curve: Curve, sha: Sha256, h: Hash, ct: seq<byte>, priv: SecKey, c: Circuit)
    requires c.ValidCircuit() && priv.prob == 0
    ensures TestOutcome(curve, sha, h, ct, priv, c) != Some(true)
  {
  }

  /** Test: decode the share, read the 2·mod masked labels, recover one label
      of each recipient wire, read the sender's labels, unpack and evaluate the
      circuit, and compare the output number with prob. */
  method Test(curve: Curve, sha: Sha256, h: Hash, ct: seq<byte>, priv: SecKey, c: Circuit) returns (r: Option<bool>)
    ensures priv.numKeys != 8 && priv.numKeys != 24 ==> r == Some(false)
    ensures c.ValidCircuit() ==> r == TestOutcome(curve, sha, h, ct, priv, c)
  {
    var mod := priv.numKeys;
    if mod != 8 && mod != 24 {
      return Some(false);
    }
    var assembled := AssembleLabels(curve, sha, ct, priv, c);
    if assembled.None? {
      return None;
    }
    var labels, rest := assembled.value.0, assembled.value.1;
    r := EvaluateAndCompare(h, labels, rest, mod, priv.prob, c);
  }

  /** The evaluating half of Test: unpack, evaluate, decode the output
      labels into a binary string, parse it with mod bits and compare. */
  method EvaluateAndCompare(h: Hash, labels: seq<Label>, rest: seq<byte>, mod: nat, prob: nat, c: Circuit)
    returns (r: Option<bool>)
    requires 1 <= mod <= 64
    ensures c.ValidCircuit() ==> r == EvaluationOutcome(c, h, labels, rest, mod, prob)
  {
    var garb := new GarbledCircuit();
    var unpacked := PackedUnmarshal(garb, rest, c);
    if !unpacked {
      return None;
    }
    var evalCheck, output := EvaluateCircuit(garb, c, labels, h);
    if !evalCheck {
      return Some(false);
    }
    var outputStr := DecodePlaintextOutputLabels(output);
    var numAsInt := ParseUintBase2(outputStr, mod);
    ParseDecoded(output, mod);
    if c.ValidCircuit() {
      assert output == Outputs(c, garb.garbledGates, labels, h);
    }
    if numAsInt.None? {
      return None;
    }
    r := Some(Uint32(numAsInt.value) < prob);
  }

  /** The reading half of Test: the share, the masked labels, the recovered
      labels and the sender's labels, and the bytes after them. */
  method AssembleLabels(curve: Curve, sha: Sha256, ct: seq<byte>, priv: SecKey, c: Circuit)
    returns (r: Option<(seq<Label>, seq<byte>)>)
    requires priv.numKeys >= 0
    ensures r == TestLabels(curve, sha, ct, priv, c)
  {
    var mod := priv.numKeys;
    var decoded := DecodeShare(curve.p, ct);
    if decoded.None? {
      return None;
    }
    var otherShare := decoded.value.0;
    var modRead := ReadModLabels(decoded.value.1, mod);
    if modRead.None? {
      return None;
    }
    var pairs, buf := modRead.value.0, modRead.value.1;
    if c.numInputWires < mod {
      return None;
    }
    r := FillInputLabels(curve, sha, otherShare, priv, pairs, buf, c.numInputWires);
  }

  /**
   * The input label array of Test: the recipient's labels recovered from the
   * key stream at the top, the sender's own labels read from the buffer below.
   */
  method FillInputLabels(curve: Curve, sha: Sha256, other: GroupElement, priv: SecKey,
                         pairs: seq<WireLabelSet>, buf: seq<byte>, n: nat)
    returns (r: Option<(seq<Label>, seq<byte>)>)
    requires |pairs| <= n
    ensures r.Some? <==> |pairs| <= |priv.secKeys| && ReadLabels(buf, n - |pairs|).Some?
    ensures r.Some? ==> r.value == (ReadLabels(buf, n - |pairs|).value.0 + RecipientLabels(curve, sha, other, priv, pairs),
                                    ReadLabels(buf, n - |pairs|).value.1)
  {
    var inputLabels := new Label[n](_ => ZeroLabel());
    var recovered := RecoverLabels(curve, sha, other, priv, pairs, inputLabels, n - |pairs|);
    if !recovered {
      return None;
    }
    var rest := ReadOwnLabels(buf, inputLabels, n - |pairs|);
    if rest.None? {
      return None;
    }
    assert inputLabels[..] == inputLabels[..n - |pairs|] + inputLabels[n - |pairs|..];
    r := Some((inputLabels[..], rest.value));
  }

  /** The first loop of Test: mod pairs of labels, label 0 then label 1. */
  method ReadModLabels(data: seq<byte>, mod: nat) returns (r: Option<(seq<WireLabelSet>, seq<byte>)>)
    ensures r.Some? <==> ReadLabels(data, 2 * mod).Some?
    ensures r.Some? ==> r.value == (ModPairs(ReadLabels(data, 2 * mod).value.0, mod), ReadLabels(data, 2 * mod).value.1)
  {
    var pairs: seq<WireLabelSet> := [];
    var buf := data;
    ghost var read: seq<Label> := [];
    for i := 0 to mod
      invariant ReadLabels(data, 2 * i) == Some((read, buf))
      invariant |pairs| == i && forall k :: 0 <= k < i ==> pairs[k] == WireLabelSet(read[2 * k], read[2 * k + 1])
    {
      var zero := ReadLabel(buf);
      if zero.None? {
        ReadLabelsFails(data, 2 * i + 1, 2 * mod);
        return None;
      }
      var one := ReadLabel(zero.value.1);
      if one.None? {
        ReadLabelsFails(data, 2 * i + 2, 2 * mod);
        return None;
      }
      assert ReadLabels(data, 2 * i + 1) == Some((read + [zero.value.0], zero.value.1));
      assert ReadLabels(data, 2 * i + 2) == Some((read + [zero.value.0] + [one.value.0], one.value.1));
      read := read + [zero.value.0] + [one.value.0];
      pairs := pairs + [WireLabelSet(zero.value.0, one.value.0)];
      buf := one.value.1;
    }
    assert pairs == ModPairs(read, mod);
    r := Some((pairs, buf));
  }

  /** The second loop of Test: for wire start + idx, the pad of the subkey
      idx XORed onto the slot prob selects. */
  method RecoverLabels(curve: Curve, sha: Sha256, other: GroupElement, priv: SecKey, pairs: seq<WireLabelSet>,
                       inputLabels: array<Label>, start: nat) returns (ok: bool)
    requires start + |pairs| == inputLabels.Length
    modifies inputLabels
    ensures ok <==> |pairs| <= |priv.secKeys|
    ensures ok ==> inputLabels[start..] == RecipientLabels(curve, sha, other, priv, pairs)
    ensures inputLabels[..start] == old(inputLabels[..start])
  {
    for i := start to inputLabels.Length
      invariant i - start <= |priv.secKeys|
      invariant forall k :: start <= k < i ==> inputLabels[k] == RecipientLabel(curve, sha, other, priv, pairs, k - start)
      invariant inputLabels[..start] == old(inputLabels[..start])
    {
      var idx := i - start;
      if idx >= |priv.secKeys| {
        return false;
      }
      var sharedKey := curve.scalarMult(other, MinimalBytes(priv.secKeys[idx]));
      var pad := KeyPad(curve, sha, other, sharedKey);
      var wireChoice := TestSlot(priv.prob, idx);
      inputLabels[i] := XorLabel(pad, pairs[idx].Get(wireChoice));
    }
    ok := true;
  }

  /** The third loop of Test: the sender's labels for the first count wires. */
  method ReadOwnLabels(data: seq<byte>, inputLabels: array<Label>, count: nat) returns (rest: Option<seq<byte>>)
    requires count <= inputLabels.Length
    modifies inputLabels
    ensures rest.Some? <==> ReadLabels(data, count).Some?
    ensures rest.Some? ==> ReadLabels(data, count).value == (inputLabels[..count], rest.value)
    ensures inputLabels[count..] == old(inputLabels[count..])
  {
    var buf := data;
    for i := 0 to count
      invariant ReadLabels(data, i) == Some((inputLabels[..i], buf))
      invariant inputLabels[count..] == old(inputLabels[count..])
    {
      var l := ReadLabel(buf);
      if l.None? {
        ReadLabelsFails(data, i + 1, count);
        return None;
      }
      inputLabels[i] := l.value.0;
      buf := l.value.1;
      assert inputLabels[..i + 1] == inputLabels[..i] + [l.value.0];
    }
    rest := Some(buf);
  }

  // ---------------------------------------------------------------------------
  // Flag followed by Test

  /** The plaintext input the circuit sees when Test reads a transcript of
      Flag: bit i of the sender's number x on each of the first start wires,
      bit idx of prob on wire start + idx. */
  function HonestInput(x: nat, start: nat, prob: nat, mod: nat): (bits: seq<bool>)
    ensures |bits| == start + mod
    ensures forall i :: 0 <= i < start ==> bits[i] == Common.Bit(x, i)
    ensures forall i :: start <= i < start + mod ==> bits[i] == TestSlot(prob, i - start)
  {
    seq(start, i requires 0 <= i < start => Common.Bit(x, i)) + seq(mod, idx requires 0 <= idx < mod => TestSlot(prob, idx))
  }

  /** Label bits[i] of wire i, for each wire. */
  function EncodedInput(w: seq<WireLabelSet>, bits: seq<bool>): (labels: seq<Label>)
    requires |bits| <= |w|
    ensures |labels| == |bits| && forall i :: 0 <= i < |bits| ==> labels[i] == w[i].Get(bits[i])
  {
    seq(|bits|, i requires 0 <= i < |bits| => w[i].Get(bits[i]))
  }

  /** Subkey idx of the recipient and the share b·P meet in the point the
      sender computed from public key 2·idx + (bit idx of prob) and b, for
      every idx; the group law gives this when the keys are a key pair and
      the subkeys were extracted for that prob. */
  predicate SharedPoints(curve: Curve, pk: PubKey, b: nat, priv: SecKey, mod: nat)
    requires mod <= |priv.secKeys| && 2 * mod <= |pk.pubKeys|
  {
    var bG := curve.scalarBaseMult(MinimalBytes(b));
    forall idx :: 0 <= idx < mod ==>
      curve.scalarMult(bG, MinimalBytes(priv.secKeys[idx])) ==
      curve.scalarMult(pk.pubKeys[2 * idx + (if TestSlot(priv.prob, idx) then 1 else 0)], MinimalBytes(b))
  }

  /** The label Test recovers for subkey idx from a transcript of Flag is the
      garbled label of wire start + idx for bit idx of prob. */
  lemma RecoveredLabel(curve: Curve, sha: Sha256, pk: PubKey, c: Circuit, b: nat, w: seq<WireLabelSet>,
                       priv: SecKey, start: int, rec: seq<Label>, idx: nat)
    requires WritesTranscript(curve, pk, c, b) && c.numInputWires <= |w|
    requires priv.numKeys == GoDiv(pk.numKeys, 2) && priv.numKeys <= |priv.secKeys|
    requires SharedPoints(curve, pk, b, priv, priv.numKeys)
    requires start == c.numInputWires - priv.numKeys
    requires
      var rows := PairRows(Masked(curve, sha, pk, c, b, w), start, priv.numKeys);
      rec == RecipientLabels(curve, sha, curve.scalarBaseMult(MinimalBytes(b)), priv, ModPairs(rows, priv.numKeys))
    requires idx < priv.numKeys
    ensures rec[idx] == w[start + idx].Get(TestSlot(priv.prob, idx))
  {
    var mod := priv.numKeys;
    var bG := curve.scalarBaseMult(MinimalBytes(b));
    var masked := Masked(curve, sha, pk, c, b, w);
    var pads := PadPairs(curve, sha, pk, b, bG, mod);
    var rows := PairRows(masked, start, mod);
    var pairs := ModPairs(rows, mod);
    var slot := TestSlot(priv.prob, idx);
    MaskedPair(curve, sha, pk, c, b, w, start, idx);
    var l := w[start + idx].Get(slot);
    var pad := pads[idx].Get(slot);
    assert pad == KeyPad(curve, sha, bG, curve.scalarMult(bG, MinimalBytes(priv.secKeys[idx])));
    assert pairs[idx].Get(slot) == XorLabel(l, pad);
    assert rec[idx] == XorLabel(pad, XorLabel(l, pad));
    XorLabelComm(pad, XorLabel(l, pad));
    XorLabelCancel(l, pad);
  }

  /** Pair idx of the masked labels Flag writes is the garbled pair of wire
      start + idx masked with the pads of public keys 2·idx and 2·idx + 1. */
  lemma MaskedPair(curve: Curve, sha: Sha256, pk: PubKey, c: Circuit, b: nat, w: seq<WireLabelSet>, start: int, idx: nat)
    requires WritesTranscript(curve, pk, c, b) && c.numInputWires <= |w|
    requires start == c.numInputWires - GoDiv(pk.numKeys, 2) && idx < GoDiv(pk.numKeys, 2)
    ensures
      var mod := GoDiv(pk.numKeys, 2);
      var bG := curve.scalarBaseMult(MinimalBytes(b));
      var rows := PairRows(Masked(curve, sha, pk, c, b, w), start, mod);
      ModPairs(rows, mod)[idx] == MaskPair(w[start + idx], PadPairs(curve, sha, pk, b, bG, mod)[idx])
  {
    var mod := GoDiv(pk.numKeys, 2);
    var bG := curve.scalarBaseMult(MinimalBytes(b));
    var pads := PadPairs(curve, sha, pk, b, bG, mod);
    var masked := MaskLabels(w, pads, start);
    assert Masked(curve, sha, pk, c, b, w) == masked;
    PairOfRows(masked, start, mod, idx);
    assert masked[start + idx] == MaskPair(w[start + idx], pads[start + idx - start]);
  }

  /** Pair idx read back from the rows of the pairs from start on is pair
      start + idx. */
  lemma PairOfRows(m: seq<WireLabelSet>, start: nat, mod: nat, idx: nat)
    requires start + mod <= |m| && idx < mod
    ensures ModPairs(PairRows(m, start, mod), mod)[idx] == m[start + idx]
  {
    PairRowsAt(m, start, mod, idx);
  }

  /** Test recovers every recipient label of a transcript of Flag. */
  lemma RecoveredLabels(curve: Curve, sha: Sha256, pk: PubKey, c: Circuit, b: nat, w: seq<WireLabelSet>, priv: SecKey,
                        start: int, rec: seq<Label>)
    requires WritesTranscript(curve, pk, c, b) && c.numInputWires <= |w|
    requires priv.numKeys == GoDiv(pk.numKeys, 2) && priv.numKeys <= |priv.secKeys|
    requires SharedPoints(curve, pk, b, priv, priv.numKeys)
    requires start == c.numInputWires - priv.numKeys
    requires
      var rows := PairRows(Masked(curve, sha, pk, c, b, w), start, priv.numKeys);
      rec == RecipientLabels(curve, sha, curve.scalarBaseMult(MinimalBytes(b)), priv, ModPairs(rows, priv.numKeys))
    ensures |rec| == priv.numKeys
    ensures forall idx {:trigger rec[idx]} :: 0 <= idx < |rec| ==> rec[idx] == w[start + idx].Get(TestSlot(priv.prob, idx))
  {
    forall idx | 0 <= idx < priv.numKeys
      ensures rec[idx] == w[start + idx].Get(TestSlot(priv.prob, idx))
    {
      RecoveredLabel(curve, sha, pk, c, b, w, priv, start, rec, idx);
    }
  }

  /** The sender's labels Flag writes are the labels of the bits of x. */
  lemma OwnLabels(curve: Curve, sha: Sha256, pk: PubKey, c: Circuit, b: nat, x: nat, w: seq<WireLabelSet>,
                  start: int, own: seq<Label>)
    requires WritesTranscript(curve, pk, c, b) && c.numInputWires <= |w|
    requires start == c.numInputWires - GoDiv(pk.numKeys, 2)
    requires own == ChosenLabels(Masked(curve, sha, pk, c, b, w), x, start)
    ensures |own| == start
    ensures forall i {:trigger own[i]} :: 0 <= i < |own| ==> own[i] == w[i].Get(Common.Bit(x, i))
  {
    var masked := Masked(curve, sha, pk, c, b, w);
    forall i | 0 <= i < start
      ensures own[i] == w[i].Get(Common.Bit(x, i))
    {
      assert masked[i] == w[i];
    }
  }

  /** The labels Test reads from a share, 2·mod masked labels, the sender's
      labels and a rest: the sender's labels, then the recovered ones. */
  lemma TestLabelsOfParts(curve: Curve, sha: Sha256, priv: SecKey, c: Circuit, bG: GroupElement,
                          share: seq<byte>, rows: seq<Label>, own: seq<Label>, rest: seq<byte>)
    requires priv.numKeys <= c.numInputWires && priv.numKeys <= |priv.secKeys|
    requires EncodeShare(curve.p, bG) == Some(share)
    requires |rows| == 2 * priv.numKeys && |own| == c.numInputWires - priv.numKeys
    ensures TestLabels(curve, sha, share + (Flat(rows) + (Flat(own) + rest)), priv, c) ==
      Some((own + RecipientLabels(curve, sha, bG, priv, ModPairs(rows, priv.numKeys)), rest))
  {
    ShareRoundTrip(curve.p, bG, Flat(rows) + (Flat(own) + rest));
    ReadLabelsFlat(rows, Flat(own) + rest);
    ReadLabelsFlat(own, rest);
  }

  lemma Assoc4(a: seq<byte>, b: seq<byte>, c: seq<byte>, d: seq<byte>)
    ensures a + b + c + d == a + (b + (c + d))
  {
  }

  /** Reading a transcript of Flag, Test assembles the honest encoding of the
      sender's number and the recipient's prob bits, and the packed circuit
      is what remains. */
  lemma TestRecoversLabels(curve: Curve, sha: Sha256, pk: PubKey, c: Circuit, b: nat, x: nat,
                           w: seq<WireLabelSet>, tables: seq<seq<Label>>, priv: SecKey)
    requires WritesTranscript(curve, pk, c, b) && c.numInputWires <= |w|
    requires priv.numKeys == GoDiv(pk.numKeys, 2) && priv.numKeys <= |priv.secKeys|
    requires SharedPoints(curve, pk, b, priv, priv.numKeys)
    ensures
      var mod := priv.numKeys;
      var start := c.numInputWires - mod;
      TestLabels(curve, sha, Transcript(curve, sha, pk, c, b, x, w, tables), priv, c) ==
        Some((EncodedInput(w, HonestInput(x, start, priv.prob, mod)),
              Packed(Masked(curve, sha, pk, c, b, w), c.numInputWires, tables)))
  {
    var mod := priv.numKeys;
    var numIn := c.numInputWires;
    var start := numIn - mod;
    var bG := curve.scalarBaseMult(MinimalBytes(b));
    var masked := Masked(curve, sha, pk, c, b, w);
    var rows := PairRows(masked, start, mod);
    var own := ChosenLabels(masked, x, start);
    var packed := Packed(masked, numIn, tables);
    var share := EncodeShare(curve.p, bG).value;
    Assoc4(share, Flat(rows), Flat(own), packed);
    TestLabelsOfParts(curve, sha, priv, c, bG, share, rows, own, packed);
    var rec := RecipientLabels(curve, sha, bG, priv, ModPairs(rows, mod));
    OwnLabels(curve, sha, pk, c, b, x, w, start, own);
    RecoveredLabels(curve, sha, pk, c, b, w, priv, start, rec);
    Assembled(w, x, priv.prob, start, own, rec);
  }

  /** The sender's labels for the bits of x followed by the recovered
      labels for the bits of prob are the encoding of the honest input. */
  lemma Assembled(w: seq<WireLabelSet>, x: nat, prob: nat, start: int, own: seq<Label>, rec: seq<Label>)
    requires |own| == start && start + |rec| <= |w|
    requires forall i {:trigger own[i]} :: 0 <= i < |own| ==> own[i] == w[i].Get(Common.Bit(x, i))
    requires forall idx {:trigger rec[idx]} :: 0 <= idx < |rec| ==> rec[idx] == w[start + idx].Get(TestSlot(prob, idx))
    ensures own + rec == EncodedInput(w, HonestInput(x, start, prob, |rec|))
  {
    var bits := HonestInput(x, start, prob, |rec|);
    forall idx | 0 <= idx < |rec|
      ensures rec[idx] == w[|own| + idx].Get(bits[|own| + idx])
    {
      assert bits[start + idx] == TestSlot(prob, idx);
    }
    Concatenated(w, bits, own, rec);
  }

  /** Labels for the first |own| bits followed by labels for the rest are the
      encoding of all the bits. */
  lemma Concatenated(w: seq<WireLabelSet>, bits: seq<bool>, own: seq<Label>, rec: seq<Label>)
    requires |own| + |rec| == |bits| <= |w|
    requires forall i :: 0 <= i < |own| ==> own[i] == w[i].Get(bits[i])
    requires forall idx {:trigger rec[idx]} :: 0 <= idx < |rec| ==> rec[idx] == w[|own| + idx].Get(bits[|own| + idx])
    ensures own + rec == EncodedInput(w, bits)
  {
    var e := EncodedInput(w, bits);
    forall i | 0 <= i < |bits|
      ensures (own + rec)[i] == e[i]
    {
      if i >= |own| {
        assert rec[i - |own|] == w[|own| + (i - |own|)].Get(bits[|own| + (i - |own|)]);
      }
    }
  }

  /** The plaintext value of every output of the circuit on input bits. */
  function PlainOutputs(c: Circuit, bits: seq<bool>): (outs: seq<bool>)
    requires c.ValidCircuit()
    ensures |outs| == c.numOutputWires
    ensures forall i :: 0 <= i < c.numOutputWires ==> outs[i] == PlainValue(c, bits, c.GetOutputGate(i))
  {
    seq(c.numOutputWires, i requires 0 <= i < c.numOutputWires => PlainValue(c, bits, c.GetOutputGate(i)))
  }

  /** What Test answers when the circuit computes on plaintext bits: false
      without outputs, nothing when the output number needs mod bits or more,
      else whether its low 32 bits are below prob. */
  function PlainOutcome(c: Circuit, bits: seq<bool>, mod: nat, prob: nat): Option<bool>
    requires c.ValidCircuit()
  {
    if c.numOutputWires < 1 then Some(false)
    else
      Compare(BitsValue(PlainOutputs(c, bits)), mod, prob)
  }

  /** Flag followed by Test computes the comparison circuit: on a transcript
      Flag writes for a correctly garbled circuit, with subkeys that share the
      sender's points, Test answers what the circuit says about the sender's
      number and the recipient's prob. */
  lemma TestOfTranscript(curve: Curve, sha: Sha256, h: Hash, pk: PubKey, c: Circuit, b: nat, x: nat,
                         w: seq<WireLabelSet>, tables: seq<seq<Label>>, delta: Label, priv: SecKey)
    requires WellGarbled(c, w, tables, delta, h) && ExactArities(c) && AllGarbleable(c)
    requires WritesTranscript(curve, pk, c, b)
    requires priv.numKeys == 8 || priv.numKeys == 24
    requires priv.numKeys == GoDiv(pk.numKeys, 2) && priv.numKeys <= |priv.secKeys|
    requires SharedPoints(curve, pk, b, priv, priv.numKeys)
    ensures TestOutcome(curve, sha, h, Transcript(curve, sha, pk, c, b, x, w, tables), priv, c) ==
      PlainOutcome(c, HonestInput(x, c.numInputWires - priv.numKeys, priv.prob, priv.numKeys), priv.numKeys, priv.prob)
  {
    WellGarbledShaped(c, w, tables, delta, h);
    TranscriptReadsBack(curve, sha, pk, c, b, x, w, tables, priv);
    OutcomeOfEncoding(curve, sha, h, Transcript(curve, sha, pk, c, b, x, w, tables), priv, c,
                      Packed(Masked(curve, sha, pk, c, b, w), c.numInputWires, tables), w, tables, delta,
                      HonestInput(x, c.numInputWires - priv.numKeys, priv.prob, priv.numKeys));
  }

  /** Test reads back the honest encoding and the tables from a transcript
      of Flag. */
  lemma TranscriptReadsBack(curve: Curve, sha: Sha256, pk: PubKey, c: Circuit, b: nat, x: nat,
                            w: seq<WireLabelSet>, tables: seq<seq<Label>>, priv: SecKey)
    requires WritesTranscript(curve, pk, c, b) && c.numInputWires <= |w|
    requires TablesShaped(c, tables)
    requires priv.numKeys == GoDiv(pk.numKeys, 2) && priv.numKeys <= |priv.secKeys|
    requires SharedPoints(curve, pk, b, priv, priv.numKeys)
    ensures
      var mod := priv.numKeys;
      var rest := Packed(Masked(curve, sha, pk, c, b, w), c.numInputWires, tables);
      && TestLabels(curve, sha, Transcript(curve, sha, pk, c, b, x, w, tables), priv, c) ==
           Some((EncodedInput(w, HonestInput(x, c.numInputWires - mod, priv.prob, mod)), rest))
      && Unpack(rest, c).Some? && Unpack(rest, c).value.tables == tables
  {
    TestRecoversLabels(curve, sha, pk, c, b, x, w, tables, priv);
    PackRoundTrip(c, Masked(curve, sha, pk, c, b, w), tables);
  }

  lemma EncodedInputEncodes(c: Circuit, w: seq<WireLabelSet>, bits: seq<bool>)
    requires |w| == |c.gates| && 0 <= |bits| == c.numInputWires <= |w|
    ensures EncodesInput(c, w, bits, EncodedInput(w, bits))
  {
  }

  /** When Test reads an honest encoding of bits and the tables of a
      correctly garbled circuit, it answers what the circuit computes on
      those bits. */
  lemma OutcomeOfEncoding(curve: Curve, sha: Sha256, h: Hash, ct: seq<byte>, priv: SecKey, c: Circuit,
                          rest: seq<byte>, w: seq<WireLabelSet>, tables: seq<seq<Label>>,
                          delta: Label, bits: seq<bool>)
    requires WellGarbled(c, w, tables, delta, h) && ExactArities(c) && AllGarbleable(c)
    requires priv.numKeys == 8 || priv.numKeys == 24
    requires |bits| == c.numInputWires
    requires TestLabels(curve, sha, ct, priv, c) == Some((EncodedInput(w, bits), rest))
    requires Unpack(rest, c).Some? && Unpack(rest, c).value.tables == tables
    ensures TestOutcome(curve, sha, h, ct, priv, c) == PlainOutcome(c, bits, priv.numKeys, priv.prob)
  {
    var labels := EncodedInput(w, bits);
    EncodedInputEncodes(c, w, bits);
    if c.numOutputWires >= 1 {
      HonestOutputs(c, w, tables, delta, h, bits, labels);
      assert Unpack(rest, c).value.tables == tables;
    }
  }

  /** An honest encoding evaluates, and the permute bits of the outputs are
      the circuit's plaintext outputs. */
  lemma HonestOutputs(c: Circuit, w: seq<WireLabelSet>, tables: seq<seq<Label>>, delta: Label, h: Hash,
                      bits: seq<bool>, labels: seq<Label>)
    requires WellGarbled(c, w, tables, delta, h) && ExactArities(c) && AllGarbleable(c)
    requires EncodesInput(c, w, bits, labels) && c.numOutputWires >= 1
    ensures Evaluates(c, tables, labels, h)
    ensures LsbBits(Outputs(c, tables, labels, h)) == PlainOutputs(c, bits)
  {
    forall i | 0 <= i < c.numOutputWires
      ensures GarbledValue(c, tables, labels, h, c.GetOutputGate(i)).Some?
      ensures Lsb(GarbledValue(c, tables, labels, h, c.GetOutputGate(i)).value) == PlainValue(c, bits, c.GetOutputGate(i))
    {
      OutputsDecode(c, w, tables, delta, h, bits, labels, i);
    }
  }
}
