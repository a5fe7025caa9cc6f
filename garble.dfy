/** The garbling half of the toy garbled-circuit engine (simplegarble.go):
    Free-XOR wire labels, point-and-permute tables encrypted with BLAKE2b-128,
    and the SimpleGarbledCircuit object they are stored in. */
module Garble {

  import opened Common
  import opened Circuits

  /** BLAKE2b with a 16-byte digest (RFC 7693), left abstract. */
  type Hash = seq<byte> -> Label

  /** A mask or selector bit as the Go code keeps it: an int that is 0 or 1. */
  type Bit = x: int | 0 <= x <= 1

  /** The point-and-permute bit of a label as an int. */
  function LsbBit(l: Label): (r: Bit)
    ensures r == 1 <==> Lsb(l)
  {
    if Lsb(l) then 1 else 0
  }

  /** Go's ^ on two 0/1 ints. */
  function BitXor(a: Bit, b: Bit): (r: Bit)
    ensures r == 1 <==> a != b
  {
    if a == b then 0 else 1
  }

  /** The math/rand generator the garbler draws from: an endless byte stream whose
      Read never fails. */
  class Rng {
    const stream: nat -> byte
    var pos: nat

    constructor(stream: nat -> byte)
      ensures this.stream == stream && pos == 0
    {
      this.stream := stream;
      pos := 0;
    }

    /** rand.Read into an n-byte buffer: the next n bytes of the stream. */
    method Read(n: nat) returns (bytes: seq<byte>)
      modifies this
      ensures pos == old(pos) + n
      ensures bytes == StreamBytes(old(pos), n)
    {
      bytes := StreamBytes(pos, n);
      pos := pos + n;
    }

    /** The n stream bytes from position from on. */
    function StreamBytes(from: nat, n: nat): (r: seq<byte>)
      ensures |r| == n && forall i :: 0 <= i < n ==> r[i] == stream(from + i)
    {
      seq(n, i requires 0 <= i < n => stream(from + i))
    }
  }

  /** SimpleWireLabelSet: the label meaning 0 and the label meaning 1. */
  datatype WireLabelSet = WireLabelSet(zero: Label, one: Label)
  {
    function Get(b: bool): (r: Label)
      ensures r == (if b then one else zero)
    {
      if b then one else zero
    }
  }

  // ---------------------------------------------------------------------------
  // Table shape and row order

  /** The number of garbled-table rows of a gate type: XOR 0 (Free-XOR), CONST 1,
      NOT and OUTPUT 2, every other type 4. garbleGate and PackedUnmarshal share it. */
  function TableSize(t: GateType): (r: nat)
    ensures r == 0 <==> t == Xor
    ensures r == 1 <==> t == Const
    ensures r == 2 <==> t == Not || t == Output
    ensures r == 4 <==> t != Xor && t != Const && t != Not && t != Output
  {
    if t == Not || t == Output then 2
    else if t == Const then 1
    else if t == Xor then 0
    else 4
  }

  /** getLabelBits: the high bit of a table row selects the first input's label,
      the low bit the second input's. */
  function GetLabelBits(row: nat): (r: (Bit, Bit))
    ensures 2 * r.0 + r.1 == row % 4
  {
    (if (row / 2) % 2 != 0 then 1 else 0, row % 2)
  }

  /** The row at which entry i (inputs i>>1 and i&1) of a 4-row table is stored
      under masks m0, m1. */
  function PermIndex(m0: Bit, m1: Bit, i: nat): (r: nat)
    requires i < 4
    ensures r < 4
  {
    2 * BitXor(i / 2, m0) + BitXor(i % 2, m1)
  }

  /** Masking twice with the same bits gives the entry back. */
  lemma PermIndexInvolution(m0: Bit, m1: Bit, i: nat)
    requires i < 4
    ensures PermIndex(m0, m1, PermIndex(m0, m1, i)) == i
  {
  }

  lemma PermIndexInjective(m0: Bit, m1: Bit, i: nat, j: nat)
    requires i < 4 && j < 4 && PermIndex(m0, m1, i) == PermIndex(m0, m1, j)
    ensures i == j
  {
    PermIndexInvolution(m0, m1, i);
    PermIndexInvolution(m0, m1, j);
  }

  /** s lists each of the rows 0..3 exactly once. */
  predicate IsPermutationOf4(s: seq<nat>)
  {
    && |s| == 4
    && (forall r :: 0 <= r < 4 ==> s[r] < 4)
    && (forall v :: 0 <= v < 4 ==> v in s)
  }

  /** getGatePermutation: the row order of a garbled table. Size 0 is the
      identity; size 2 puts entry 0 at row masks[0]; size 4 puts entry i at row
      PermIndex(masks[0], masks[1], i); any other size fails. A mask list too
      short for the size fails as the Go index panic would. */
  method GetGatePermutation(tableSize: int, masks: seq<Bit>) returns (result: seq<nat>, ok: bool)
    ensures |result| == 4
    ensures ok <==> tableSize == 0 || (tableSize == 2 && |masks| >= 1) || (tableSize == 4 && |masks| >= 2)
    ensures tableSize != 2 && tableSize != 4 ==> result == [0, 1, 2, 3]
    ensures ok ==> IsPermutationOf4(result)
    ensures ok && tableSize == 2 ==> result[masks[0]] == 0 && result[1 - masks[0]] == 1 && result[2..] == [2, 3]
    ensures ok && tableSize == 4 ==> forall i :: 0 <= i < 4 ==> result[PermIndex(masks[0], masks[1], i)] == i
  {
    result := [0, 1, 2, 3];
    assert result[0] == 0 && result[1] == 1 && result[2] == 2 && result[3] == 3;
    if tableSize == 0 {
      return result, true;
    }
    if tableSize != 4 && tableSize != 2 {
      return result, false;
    }
    if tableSize == 2 {
      if |masks| < 1 {
        return result, false;
      }
      result := FlipTwo(masks[0]);
      return result, true;
    }
    if |masks| < 2 {
      return result, false;
    }
    result := PermuteFour(masks[0], masks[1]);
    PermutationRows(masks[0], masks[1], result);
    ok := true;
  }

  /** The two-row branch: result[m0] = 0, result[1 - m0] = 1 on an identity array. */
  method FlipTwo(m0: Bit) returns (result: seq<nat>)
    ensures |result| == 4 && IsPermutationOf4(result)
    ensures result[m0] == 0 && result[1 - m0] == 1 && result[2..] == [2, 3]
  {
    var a := new nat[4](i => i);
    a[m0] := 0;
    a[1 - m0] := 1;
    result := a[..];
    var expected: seq<nat> := [m0 as nat, (1 - m0) as nat, 2, 3];
    assert result == expected;
    assert result[2..] == [2, 3];
    assert 0 in result && 1 in result && 2 in result && 3 in result;
  }

  /** The four-row loop: entry i is written to row PermIndex(m0, m1, i). */
  method PermuteFour(m0: Bit, m1: Bit) returns (result: seq<nat>)
    ensures |result| == 4
    ensures forall i :: 0 <= i < 4 ==> result[PermIndex(m0, m1, i)] == i
  {
    var a := new nat[4](i => i);
    for i := 0 to 4
      invariant forall j :: 0 <= j < i ==> a[PermIndex(m0, m1, j)] == j
    {
      forall j | 0 <= j < i
        ensures PermIndex(m0, m1, j) != PermIndex(m0, m1, i)
      {
        if PermIndex(m0, m1, j) == PermIndex(m0, m1, i) {
          PermIndexInjective(m0, m1, i, j);
        }
      }
      a[PermIndex(m0, m1, i)] := i;
    }
    result := a[..];
  }

  lemma PermutationRows(m0: Bit, m1: Bit, s: seq<nat>)
    requires |s| == 4
    requires forall j :: 0 <= j < 4 ==> s[PermIndex(m0, m1, j)] == j
    ensures IsPermutationOf4(s)
  {
    forall r | 0 <= r < 4
      ensures s[r] < 4
    {
      PermIndexInvolution(m0, m1, r);
      assert s[PermIndex(m0, m1, PermIndex(m0, m1, r))] == PermIndex(m0, m1, r);
    }
    forall v | 0 <= v < 4
      ensures v in s
    {
      assert s[PermIndex(m0, m1, v)] == v;
    }
  }

  // ---------------------------------------------------------------------------
  // Table entries

  /** What is hashed for a table entry: the row number as one byte, the first 15
      bytes of the first input label, and those of the second when there is one. */
  function HashInput(row: nat, inLabel1: Label, inLabel2: Option<Label>): (r: seq<byte>)
    ensures |r| == (if inLabel2.Some? then 31 else 16)
    ensures r[0] == (row % 256) as byte && r[1..16] == inLabel1[..15]
  {
    [(row % 256) as byte] + inLabel1[..15] + (if inLabel2.Some? then inLabel2.value[..15] else [])
  }

  /** encryptTableEntry: the output label XORed with the hash of the row and input labels. */
  function EncryptTableEntry(h: Hash, row: nat, inLabel1: Label, inLabel2: Option<Label>, outLabel: Label): Label
  {
    XorLabel(h(HashInput(row, inLabel1, inLabel2)), outLabel)
  }

  /** decryptTableEntry: the ciphertext XORed with the same hash. */
  function DecryptTableEntry(h: Hash, row: nat, inLabel1: Label, inLabel2: Option<Label>, ciphertext: Label): Label
  {
    XorLabel(h(HashInput(row, inLabel1, inLabel2)), ciphertext)
  }

  /** Decrypting an entry with the row and labels that encrypted it gives the
      output label back. */
  lemma DecryptEncrypt(h: Hash, row: nat, inLabel1: Label, inLabel2: Option<Label>, outLabel: Label)
    ensures DecryptTableEntry(h, row, inLabel1, inLabel2, EncryptTableEntry(h, row, inLabel1, inLabel2, outLabel)) == outLabel
  {
    var k := h(HashInput(row, inLabel1, inLabel2));
    XorLabelComm(k, outLabel);
    XorLabelAssoc(k, k, outLabel);
    XorLabelCancel(outLabel, k);
    XorLabelComm(XorLabel(outLabel, k), k);
    XorLabelAssoc(outLabel, k, k);
    XorLabelComm(k, XorLabel(k, outLabel));
  }

  // ---------------------------------------------------------------------------
  // Wire labels

  /** Every XOR gate has at least the two inputs its label assignment reads. */
  predicate XorArity(c: Circuit)
  {
    forall g :: 0 <= g < |c.gates| && c.gates[g].gateType == Xor ==> |c.gates[g].inFrom| >= 2
  }

  /** The label pair of wire g as assignWireLabelsRecurs builds it: an OUTPUT wire
      gets the structured pair (all 0x00, all 0x01); every other wire satisfies
      label1 = label0 XOR delta; a XOR wire gets label0 = L0 ^ R0 and
      label1 = L0 ^ R1 from its inputs; any other wire has bytes 0..4 of
      label0 zero. */
  predicate WireOk(c: Circuit, w: seq<WireLabelSet>, delta: Label, g: int)
    requires 0 <= g < |c.gates| == |w|
  {
    var gate := c.gates[g];
    && (gate.gateType == Output ==> w[g] == WireLabelSet(ZeroLabel(), OneLabel()))
    && (gate.gateType != Output ==> w[g].one == XorLabel(w[g].zero, delta))
    && (gate.gateType == Xor ==>
          && |gate.inFrom| >= 2
          && 0 <= gate.inFrom[0] < |w| && 0 <= gate.inFrom[1] < |w|
          && w[g].zero == XorLabel(w[gate.inFrom[0]].zero, w[gate.inFrom[1]].zero)
          && w[g].one == XorLabel(w[gate.inFrom[0]].zero, w[gate.inFrom[1]].one))
    && (gate.gateType != Xor && gate.gateType != Output ==> w[g].zero[..5] == Zeros(5))
  }

  /** The labels assigned so far (isSet[g] is false where Go still has a nil
      label) are well formed, and a XOR wire is only isSet after its inputs. */
  predicate LabelsOk(c: Circuit, w: seq<WireLabelSet>, isSet: seq<bool>, delta: Label)
  {
    && |w| == |isSet| == |c.gates|
    && forall g :: 0 <= g < |w| && isSet[g] ==>
         && WireOk(c, w, delta, g)
         && (c.gates[g].gateType == Xor ==> isSet[c.gates[g].inFrom[0]] && isSet[c.gates[g].inFrom[1]])
  }

  /** With the low bit of delta set, the two labels of every wire differ in the
      point-and-permute bit. */
  lemma PermuteBitsDiffer(c: Circuit, w: seq<WireLabelSet>, delta: Label, g: int)
    requires 0 <= g < |c.gates| == |w|
    requires Lsb(delta) && WireOk(c, w, delta, g)
    ensures Lsb(w[g].zero) != Lsb(w[g].one)
  {
    if c.gates[g].gateType == Output {
      assert ZeroLabel()[15] == 0 && OneLabel()[15] == 1;
    } else {
      LsbXor(w[g].zero, delta);
    }
  }

  /** In a valid circuit a gate never reads from an OUTPUT gate. */
  lemma InputsAreNotOutputs(c: Circuit, g: int, k: int)
    requires c.ValidCircuit() && c.numInputWires <= g < |c.gates| && 0 <= k < |c.gates[g].inFrom|
    ensures 0 <= c.gates[g].inFrom[k] < |c.gates|
    ensures c.gates[c.gates[g].inFrom[k]].gateType != Output
    ensures c.Rank(c.gates[g].inFrom[k]) < c.Rank(g)
  {
    assert c.RefsBelow(g);
  }

  /** The Free-XOR step: if b1 = b0 ^ delta then a0 ^ b1 = (a0 ^ b0) ^ delta. */
  lemma FreeXorStep(a0: Label, b0: Label, delta: Label)
    ensures XorLabel(a0, XorLabel(b0, delta)) == XorLabel(XorLabel(a0, b0), delta)
  {
    XorLabelAssoc(a0, b0, delta);
  }

  // ---------------------------------------------------------------------------
  // Tables

  /** garbleGate's switch: the gate types it can garble, with the inputs its
      mask computation reads (CONST fails the permutation, COPY the switch). */
  predicate GarbleableGate(gate: Gate)
  {
    match gate.gateType
    case Xor => true
    case And | Or => |gate.inFrom| >= 2
    case Not | Output => |gate.inFrom| >= 1
    case _ => false
  }

  /** The output bit of table entry i (inputs i>>1 and i&1, or i for one input). */
  function Truth(t: GateType, i: nat): bool
  {
    var hi, lo := (i / 2) % 2 == 1, i % 2 == 1;
    match t
    case And => hi && lo
    case Or => hi || lo
    case Xor => hi != lo
    case Not => i == 0
    case Output => i == 1
    case _ => false
  }

  /** The references of gate g are gate indices. */
  predicate RefsInRange(c: Circuit, g: int)
    requires 0 <= g < |c.gates|
  {
    forall k :: 0 <= k < |c.gates[g].inFrom| ==> 0 <= c.gates[g].inFrom[k] < |c.gates|
  }

  /** The row where garbleGate stores entry i: PermIndex under the mask bits of
      the inputs' label0 for four rows, i XOR the mask bit for two. */
  function EntryRow(c: Circuit, w: seq<WireLabelSet>, g: int, i: nat): nat
    requires 0 <= g < |c.gates| == |w| && RefsInRange(c, g) && GarbleableGate(c.gates[g])
    requires i < TableSize(c.gates[g].gateType)
  {
    var gate := c.gates[g];
    if TableSize(gate.gateType) == 4 then
      PermIndex(LsbBit(w[gate.inFrom[0]].zero), LsbBit(w[gate.inFrom[1]].zero), i)
    else
      BitXor(i, LsbBit(w[gate.inFrom[0]].zero))
  }

  /** Entry i of gate g: the label of its output bit, encrypted under the row it
      is stored at and the input labels selected by the bits of i. */
  function Entry(c: Circuit, w: seq<WireLabelSet>, g: int, h: Hash, i: nat): Label
    requires 0 <= g < |c.gates| == |w| && RefsInRange(c, g) && GarbleableGate(c.gates[g])
    requires i < TableSize(c.gates[g].gateType)
  {
    var gate := c.gates[g];
    var outLabel := w[g].Get(Truth(gate.gateType, i));
    if TableSize(gate.gateType) == 4 then
      EncryptTableEntry(h, EntryRow(c, w, g, i), w[gate.inFrom[0]].Get((i / 2) % 2 == 1),
                        Some(w[gate.inFrom[1]].Get(i % 2 == 1)), outLabel)
    else
      EncryptTableEntry(h, EntryRow(c, w, g, i), w[gate.inFrom[0]].Get(i % 2 == 1), None, outLabel)
  }

  lemma EntryRowInvolution(c: Circuit, w: seq<WireLabelSet>, g: int, i: nat)
    requires 0 <= g < |c.gates| == |w| && RefsInRange(c, g) && GarbleableGate(c.gates[g])
    requires i < TableSize(c.gates[g].gateType)
    ensures EntryRow(c, w, g, i) < TableSize(c.gates[g].gateType)
    ensures EntryRow(c, w, g, EntryRow(c, w, g, i)) == i
  {
    if TableSize(c.gates[g].gateType) == 4 {
      var gate := c.gates[g];
      PermIndexInvolution(LsbBit(w[gate.inFrom[0]].zero), LsbBit(w[gate.inFrom[1]].zero), i);
    }
  }

  /** The garbled table of gate g: row r holds the entry whose row is r. */
  function GateTable(c: Circuit, w: seq<WireLabelSet>, g: int, h: Hash): (t: seq<Label>)
    requires 0 <= g < |c.gates| == |w| && RefsInRange(c, g) && GarbleableGate(c.gates[g])
    ensures |t| == TableSize(c.gates[g].gateType)
  {
    var n := TableSize(c.gates[g].gateType);
    seq(n, r requires 0 <= r < n =>
      EntryRowInvolution(c, w, g, r);
      Entry(c, w, g, h, EntryRow(c, w, g, r)))
  }

  /** A circuit garbled by GarbleCircuit: every label pair well formed, delta's
      permute bit set, no table for INPUT gates and GateTable for every other gate. */
  predicate WellGarbled(c: Circuit, w: seq<WireLabelSet>, tables: seq<seq<Label>>, delta: Label, h: Hash)
  {
    && c.ValidCircuit()
    && XorArity(c)
    && |w| == |tables| == |c.gates|
    && Lsb(delta)
    && (forall g :: 0 <= g < |c.gates| ==> WireOk(c, w, delta, g))
    && (forall g :: 0 <= g < |c.gates| ==>
          if c.gates[g].gateType == Input then tables[g] == []
          else RefsInRange(c, g) && GarbleableGate(c.gates[g]) && tables[g] == GateTable(c, w, g, h))
  }

  /** Every gate GarbleCircuit walks over can be garbled. */
  predicate AllGarbleable(c: Circuit)
  {
    forall g :: 0 <= g < |c.gates| && c.gates[g].gateType != Input ==> GarbleableGate(c.gates[g])
  }

  /** The Free-XOR offset drawn from 16 random bytes: the low bit of the last
      byte forced to 1. */
  function SetLowBit(bytes: seq<byte>): (d: Label)
    requires |bytes| == 16
    ensures d[..15] == bytes[..15] && Lsb(d)
  {
    bytes[..15] + [bytes[15] | 1]
  }

  // ---------------------------------------------------------------------------
  // Stream use of the label assignment

  /** A gate whose label pair comes from the stream (16 bytes): neither XOR,
      whose pair is computed from its inputs, nor OUTPUT, whose pair is fixed. */
  predicate DrawsLabels(t: GateType)
  {
    t != Xor && t != Output
  }

  /** The 16-byte draws made while the isSet flags of the first n gates went
      from before to after: one per gate that became set and draws its pair. */
  function NewDraws(c: Circuit, before: seq<bool>, after: seq<bool>, n: nat): nat
    requires n <= |before| && n <= |after| && n <= |c.gates|
  {
    if n == 0 then 0
    else
      var drawn := if !before[n - 1] && after[n - 1] && DrawsLabels(c.gates[n - 1].gateType) then 1 else 0;
      NewDraws(c, before, after, n - 1) + drawn
  }

  /** How many gates of c take their pair from the stream. */
  function DrawingGates(c: Circuit): nat
  {
    NewDraws(c, seq(|c.gates|, _ => false), seq(|c.gates|, _ => true), |c.gates|)
  }

  /** Nothing set, nothing drawn. */
  lemma {:induction false} NoNewDraws(c: Circuit, s: seq<bool>, n: nat)
    requires n <= |s| && n <= |c.gates|
    ensures NewDraws(c, s, s, n) == 0
  {
    if n > 0 {
      NoNewDraws(c, s, n - 1);
    }
  }

  /** Draws add up along flags that only ever get set. */
  lemma {:induction false} NewDrawsSplit(c: Circuit, a: seq<bool>, b: seq<bool>, d: seq<bool>, n: nat)
    requires n <= |a| == |b| == |d| && n <= |c.gates|
    requires forall k :: 0 <= k < |a| && a[k] ==> b[k]
    requires forall k :: 0 <= k < |b| && b[k] ==> d[k]
    ensures NewDraws(c, a, d, n) == NewDraws(c, a, b, n) + NewDraws(c, b, d, n)
  {
    if n > 0 {
      NewDrawsSplit(c, a, b, d, n - 1);
    }
  }

  /** Setting the flag of one unset gate g draws once if g draws its pair. */
  lemma {:induction false} NewDrawsOne(c: Circuit, s: seq<bool>, g: int, n: nat)
    requires 0 <= g < |s| && n <= |s| && n <= |c.gates| && !s[g]
    ensures NewDraws(c, s, s[g := true], n) == if g < n && DrawsLabels(c.gates[g].gateType) then 1 else 0
  {
    if n > 0 {
      NewDrawsOne(c, s, g, n - 1);
    }
  }

  // ---------------------------------------------------------------------------
  // The garbled circuit object

  /** SimpleGarbledCircuit: the input and output wire counts, one table per gate,
      one label pair per gate and the Free-XOR offset. */
  class GarbledCircuit {
    var numInputWires: int
    var numOutputWires: int
    var garbledGates: seq<seq<Label>>
    var wireLabels: seq<WireLabelSet>
    var freeXorDelta: Label

    /** The zero value of the Go struct. */
    constructor()
      ensures numInputWires == 0 && numOutputWires == 0
      ensures garbledGates == [] && wireLabels == [] && freeXorDelta == ZeroLabel()
    {
      numInputWires := 0;
      numOutputWires := 0;
      garbledGates := [];
      wireLabels := [];
      freeXorDelta := ZeroLabel();
    }

    /** assignWireLabelsRecurs: give gate g its label pair after its inputs',
        skipping gates that already have one. w and isSet stand for the
        WireLabels slice, isSet[k] false where label k is still nil. Returns
        false exactly where Go panics: a XOR gate with fewer than two inputs. */
    method AssignWireLabelsRecurs(g: int, c: Circuit, w: array<WireLabelSet>, isSet: array<bool>, rng: Rng)
      returns (ok: bool)
      requires c.ValidCircuit() && 0 <= g < |c.gates| == w.Length
      requires LabelsOk(c, w[..], isSet[..], freeXorDelta)
      modifies w, isSet, rng
      decreases c.Rank(g), 1
      ensures LabelsOk(c, w[..], isSet[..], freeXorDelta)
      ensures forall k :: 0 <= k < w.Length && old(isSet[k]) ==> isSet[k] && w[k] == old(w[k])
      ensures forall k :: 0 <= k < w.Length && !old(isSet[k]) && isSet[k] ==> c.Rank(k) <= c.Rank(g)
      ensures ok ==> isSet[g]
      ensures ok <== XorArity(c)
      ensures rng.pos == old(rng.pos) + 16 * NewDraws(c, old(isSet[..]), isSet[..], w.Length)
    {
      ghost var set0 := isSet[..];
      if isSet[g] {
        NoNewDraws(c, set0, w.Length);
        return true;
      }
      var gate := c.gates[g];
      if gate.gateType != Input {
        ok := AssignInputs(g, c, w, isSet, rng);
        if !ok {
          return false;
        }
      } else {
        NoNewDraws(c, set0, w.Length);
      }
      if gate.gateType == Xor && |gate.inFrom| < 2 {
        return false;
      }
      ghost var set1 := isSet[..];
      LabelGate(g, c, w, isSet, rng);
      NewDrawsOne(c, set1, g, w.Length);
      NewDrawsSplit(c, set0, set1, isSet[..], w.Length);
      ok := true;
    }

    /** The end of assignWireLabelsRecurs once the inputs of g are labelled:
        draw g's pair and mark it set, keeping every label well formed. */
    method LabelGate(g: int, c: Circuit, w: array<WireLabelSet>, isSet: array<bool>, rng: Rng)
      requires c.ValidCircuit() && 0 <= g < |c.gates| == w.Length
      requires LabelsOk(c, w[..], isSet[..], freeXorDelta) && !isSet[g]
      requires c.gates[g].gateType != Input ==> forall j :: 0 <= j < |c.gates[g].inFrom| ==>
        0 <= c.gates[g].inFrom[j] < w.Length && isSet[c.gates[g].inFrom[j]]
      requires c.gates[g].gateType == Xor ==> |c.gates[g].inFrom| >= 2
      modifies w, isSet, rng
      ensures LabelsOk(c, w[..], isSet[..], freeXorDelta)
      ensures w[..] == old(w[..])[g := w[g]] && isSet[..] == old(isSet[..])[g := true]
      ensures DrawsLabels(c.gates[g].gateType) ==>
        && w[g].zero == Zeros(5) + rng.StreamBytes(old(rng.pos), 16)[5..]
        && rng.pos == old(rng.pos) + 16
      ensures !DrawsLabels(c.gates[g].gateType) ==> rng.pos == old(rng.pos)
    {
      var wg := NewLabels(g, c, w[..], isSet[..], rng);
      PlaceWire(g, c, w, isSet, wg);
      assert w[g] == w[..][g] == wg;
    }

    /** Store the new pair of gate g and mark it set, keeping every label
        well formed. */
    method PlaceWire(g: int, c: Circuit, w: array<WireLabelSet>, isSet: array<bool>, wg: WireLabelSet)
      requires c.ValidCircuit() && 0 <= g < |c.gates| == w.Length
      requires LabelsOk(c, w[..], isSet[..], freeXorDelta) && !isSet[g]
      requires WireOk(c, w[..][g := wg], freeXorDelta, g)
      requires c.gates[g].gateType == Xor ==> isSet[c.gates[g].inFrom[0]] && isSet[c.gates[g].inFrom[1]]
      modifies w, isSet
      ensures LabelsOk(c, w[..], isSet[..], freeXorDelta)
      ensures w[..] == old(w[..])[g := wg] && isSet[..] == old(isSet[..])[g := true]
    {
      var before := w[..];
      ghost var setBefore := isSet[..];
      StoreWire(w, isSet, g, wg);
      assert isSet[..][g := false] == setBefore;
      AssignPreserves(c, before, isSet[..], w[..], g, freeXorDelta);
    }

    /** The recursion over the inputs of a non-input gate, in order. */
    method AssignInputs(g: int, c: Circuit, w: array<WireLabelSet>, isSet: array<bool>, rng: Rng)
      returns (ok: bool)
      requires c.ValidCircuit() && c.numInputWires <= g < |c.gates| == w.Length
      requires LabelsOk(c, w[..], isSet[..], freeXorDelta) && !isSet[g]
      modifies w, isSet, rng
      decreases c.Rank(g), 0
      ensures LabelsOk(c, w[..], isSet[..], freeXorDelta)
      ensures forall k :: 0 <= k < w.Length && old(isSet[k]) ==> isSet[k] && w[k] == old(w[k])
      ensures forall k :: 0 <= k < w.Length && !old(isSet[k]) && isSet[k] ==> c.Rank(k) < c.Rank(g)
      ensures !isSet[g]
      ensures ok ==> forall j :: 0 <= j < |c.gates[g].inFrom| ==>
        0 <= c.gates[g].inFrom[j] < w.Length && isSet[c.gates[g].inFrom[j]]
      ensures ok <== XorArity(c)
      ensures rng.pos == old(rng.pos) + 16 * NewDraws(c, old(isSet[..]), isSet[..], w.Length)
    {
      var gate := c.gates[g];
      ghost var set0 := isSet[..];
      NoNewDraws(c, set0, w.Length);
      var i := 0;
      while i < |gate.inFrom|
        invariant 0 <= i <= |gate.inFrom|
        invariant LabelsOk(c, w[..], isSet[..], freeXorDelta)
        invariant forall k :: 0 <= k < w.Length && old(isSet[k]) ==> isSet[k] && w[k] == old(w[k])
        invariant forall k :: 0 <= k < w.Length && !old(isSet[k]) && isSet[k] ==> c.Rank(k) < c.Rank(g)
        invariant forall j :: 0 <= j < i ==> 0 <= gate.inFrom[j] < w.Length && isSet[gate.inFrom[j]]
        invariant rng.pos == old(rng.pos) + 16 * NewDraws(c, set0, isSet[..], w.Length)
      {
        InputsAreNotOutputs(c, g, i);
        ghost var set1 := isSet[..];
        ok := AssignWireLabelsRecurs(gate.inFrom[i], c, w, isSet, rng);
        NewDrawsSplit(c, set0, set1, isSet[..], w.Length);
        if !ok {
          return false;
        }
        i := i + 1;
      }
      ok := true;
    }

    /** garbleGate: build the table of non-input gate g from the label pairs.
        Entry i (inputs i>>1 and i&1, or i for one input) encrypts the label of
        the gate's truth value and is stored at row EntryRow. Fails for CONST
        (no permutation of one row), for COPY (the switch default) and where Go
        would index a missing input. Only the table of gate g changes. */
    method GarbleGate(g: int, c: Circuit, h: Hash) returns (ok: bool)
      requires c.ValidCircuit() && c.numInputWires <= g < |c.gates|
      requires |wireLabels| == |garbledGates| == |c.gates|
      modifies this
      ensures numInputWires == old(numInputWires) && numOutputWires == old(numOutputWires)
      ensures wireLabels == old(wireLabels) && freeXorDelta == old(freeXorDelta)
      ensures |garbledGates| == |old(garbledGates)|
      ensures forall k :: 0 <= k < |garbledGates| && k != g ==> garbledGates[k] == old(garbledGates[k])
      ensures ok <==> GarbleableGate(c.gates[g])
      ensures ok ==> RefsInRange(c, g) && garbledGates[g] == GateTable(c, wireLabels, g, h)
    {
      assert c.RefsBelow(g);
      var gate := c.gates[g];
      var tableSize := TableSize(gate.gateType);
      var table := new Label[tableSize](_ => ZeroLabel());
      garbledGates := garbledGates[g := table[..]];
      var masks: seq<Bit> := [];
      if tableSize >= 2 {
        if |gate.inFrom| < 1 {
          return false;
        }
        masks := masks + [LsbBit(wireLabels[gate.inFrom[0]].zero)];
      }
      if tableSize == 4 {
        if |gate.inFrom| < 2 {
          return false;
        }
        masks := masks + [LsbBit(wireLabels[gate.inFrom[1]].zero)];
      }
      var gateLocs;
      gateLocs, ok := GetGatePermutation(tableSize, masks);
      if !ok {
        return false;
      }
      if gate.gateType == Copy {
        return false;
      }
      GateLocsAreRows(c, wireLabels, g, masks, gateLocs);
      var t := EncryptRows(c, wireLabels, g, h, gateLocs);
      garbledGates := garbledGates[g := t];
    }

    /** GarbleCircuit: reject an invalid circuit without touching the object;
        otherwise draw delta (16 bytes with the low bit of the last set), assign
        labels to every gate in index order, then garble every non-input gate.
        Succeeds exactly when every XOR gate has two inputs and every gate can be
        garbled, and then leaves a WellGarbled circuit. */
    method GarbleCircuit(c: Circuit, rng: Rng, h: Hash) returns (ok: bool)
      modifies this, rng
      ensures !c.ValidCircuit() ==> !ok && unchanged(this) && unchanged(rng)
      ensures ok <==> c.ValidCircuit() && XorArity(c) && AllGarbleable(c)
      ensures ok ==> numInputWires == c.numInputWires && numOutputWires == c.numOutputWires
      ensures ok ==> WellGarbled(c, wireLabels, garbledGates, freeXorDelta, h)
      ensures c.ValidCircuit() ==> freeXorDelta == SetLowBit(rng.StreamBytes(old(rng.pos), 16))
      ensures ok ==> rng.pos == old(rng.pos) + 16 + 16 * DrawingGates(c)
    {
      if !c.ValidCircuit() {
        return false;
      }
      var n := |c.gates|;
      var w := new WireLabelSet[n](_ => WireLabelSet(ZeroLabel(), ZeroLabel()));
      var isSet := new bool[n](_ => false);
      wireLabels := w[..];
      garbledGates := seq(n, _ => []);
      numInputWires := c.numInputWires;
      numOutputWires := c.numOutputWires;
      var bytes := rng.Read(16);
      freeXorDelta := SetLowBit(bytes);
      assert isSet[..] == seq(n, _ => false);
      ok := AssignAll(c, w, isSet, rng);
      if !ok {
        return false;
      }
      assert isSet[..] == seq(n, _ => true);
      wireLabels := w[..];
      ok := GarbleAll(c, h);
    }

    /** GarbleCircuit's first loop: assignWireLabelsRecurs on every gate in index
        order. Succeeds exactly when every XOR gate has two inputs, and then every
        gate has a well-formed pair. */
    method AssignAll(c: Circuit, w: array<WireLabelSet>, isSet: array<bool>, rng: Rng) returns (ok: bool)
      requires c.ValidCircuit() && |c.gates| == w.Length
      requires LabelsOk(c, w[..], isSet[..], freeXorDelta)
      modifies w, isSet, rng
      ensures ok <==> XorArity(c)
      ensures ok ==> forall g :: 0 <= g < w.Length ==> WireOk(c, w[..], freeXorDelta, g)
      ensures ok ==> forall g :: 0 <= g < w.Length ==> isSet[g]
      ensures rng.pos == old(rng.pos) + 16 * NewDraws(c, old(isSet[..]), isSet[..], w.Length)
    {
      ghost var set0 := isSet[..];
      NoNewDraws(c, set0, w.Length);
      for i := 0 to w.Length
        invariant LabelsOk(c, w[..], isSet[..], freeXorDelta)
        invariant forall j :: 0 <= j < i ==> isSet[j]
        invariant forall k :: 0 <= k < w.Length && set0[k] ==> isSet[k]
        invariant rng.pos == old(rng.pos) + 16 * NewDraws(c, set0, isSet[..], w.Length)
      {
        ghost var set1 := isSet[..];
        ok := AssignWireLabelsRecurs(i, c, w, isSet, rng);
        NewDrawsSplit(c, set0, set1, isSet[..], w.Length);
        if !ok {
          return false;
        }
      }
      assert forall g :: 0 <= g < w.Length ==> WireOk(c, w[..], freeXorDelta, g);
      assert XorArity(c) by {
        forall g | 0 <= g < |c.gates| && c.gates[g].gateType == Xor
          ensures |c.gates[g].inFrom| >= 2
        {
          assert WireOk(c, w[..], freeXorDelta, g);
        }
      }
      ok := true;
    }

    /** GarbleCircuit's second loop: garbleGate on every non-input gate in index
        order, stopping at the first failure. Succeeds exactly when every such
        gate can be garbled, and then every table is in place. */
    method GarbleAll(c: Circuit, h: Hash) returns (ok: bool)
      requires c.ValidCircuit()
      requires |wireLabels| == |c.gates| && garbledGates == seq(|c.gates|, _ => [])
      modifies this
      ensures numInputWires == old(numInputWires) && numOutputWires == old(numOutputWires)
      ensures wireLabels == old(wireLabels) && freeXorDelta == old(freeXorDelta)
      ensures ok <==> AllGarbleable(c)
      ensures ok ==> |garbledGates| == |c.gates| && forall g :: 0 <= g < |c.gates| ==>
        if c.gates[g].gateType == Input then garbledGates[g] == []
        else RefsInRange(c, g) && GarbleableGate(c.gates[g]) && garbledGates[g] == GateTable(c, wireLabels, g, h)
    {
      var n := |c.gates|;
      for i := 0 to n
        invariant numInputWires == old(numInputWires) && numOutputWires == old(numOutputWires)
        invariant wireLabels == old(wireLabels) && freeXorDelta == old(freeXorDelta)
        invariant |garbledGates| == n
        invariant forall g :: i <= g < n ==> garbledGates[g] == []
        invariant forall g :: 0 <= g < i ==>
          if c.gates[g].gateType == Input then garbledGates[g] == []
          else RefsInRange(c, g) && GarbleableGate(c.gates[g]) && garbledGates[g] == GateTable(c, wireLabels, g, h)
      {
        if c.gates[i].gateType != Input {
          ok := GarbleGate(i, c, h);
          if !ok {
            return false;
          }
        }
      }
      ok := true;
    }

    /** The new pair of gate g once its inputs have theirs: XOR of the input
        labels, the structured pair for an OUTPUT gate, or 16 random bytes with
        bytes 0..4 cleared and label1 = label0 XOR delta. */
    method NewLabels(g: int, c: Circuit, w: seq<WireLabelSet>, isSet: seq<bool>, rng: Rng) returns (wg: WireLabelSet)
      requires c.ValidCircuit() && 0 <= g < |c.gates| == |w|
      requires LabelsOk(c, w, isSet, freeXorDelta)
      requires c.gates[g].gateType != Input ==> forall j :: 0 <= j < |c.gates[g].inFrom| ==>
        0 <= c.gates[g].inFrom[j] < |w| && isSet[c.gates[g].inFrom[j]]
      requires c.gates[g].gateType == Xor ==> |c.gates[g].inFrom| >= 2
      modifies rng
      ensures WireOk(c, w[g := wg], freeXorDelta, g)
      ensures c.gates[g].gateType == Xor ==> isSet[c.gates[g].inFrom[0]] && isSet[c.gates[g].inFrom[1]]
      ensures DrawsLabels(c.gates[g].gateType) ==>
        && wg.zero == Zeros(5) + rng.StreamBytes(old(rng.pos), 16)[5..]
        && rng.pos == old(rng.pos) + 16
      ensures !DrawsLabels(c.gates[g].gateType) ==> rng.pos == old(rng.pos)
    {
      var gate := c.gates[g];
      if gate.gateType == Xor {
        InputsAreNotOutputs(c, g, 0);
        InputsAreNotOutputs(c, g, 1);
        var left, right := gate.inFrom[0], gate.inFrom[1];
        assert isSet[right];
        assert WireOk(c, w, freeXorDelta, right);
        wg := WireLabelSet(XorLabel(w[left].zero, w[right].zero), XorLabel(w[left].zero, w[right].one));
        XorPairOk(c, w, freeXorDelta, g, wg);
      } else if gate.gateType == Output {
        wg := WireLabelSet(ZeroLabel(), OneLabel());
      } else {
        var bytes := rng.Read(16);
        var zero: Label := Zeros(5) + bytes[5..];
        wg := WireLabelSet(zero, XorLabel(zero, freeXorDelta));
        RandomPairOk(c, w, freeXorDelta, g, bytes[5..], wg);
      }
    }
  }

  /** The pair of a XOR gate satisfies WireOk when its second input's does. */
  lemma XorPairOk(c: Circuit, w: seq<WireLabelSet>, delta: Label, g: int, wg: WireLabelSet)
    requires 0 <= g < |c.gates| == |w| && c.gates[g].gateType == Xor
    requires |c.gates[g].inFrom| >= 2
    requires 0 <= c.gates[g].inFrom[0] < |w| && 0 <= c.gates[g].inFrom[1] < |w|
    requires c.gates[g].inFrom[0] != g && c.gates[g].inFrom[1] != g
    requires w[c.gates[g].inFrom[1]].one == XorLabel(w[c.gates[g].inFrom[1]].zero, delta)
    requires wg.zero == XorLabel(w[c.gates[g].inFrom[0]].zero, w[c.gates[g].inFrom[1]].zero)
    requires wg.one == XorLabel(w[c.gates[g].inFrom[0]].zero, w[c.gates[g].inFrom[1]].one)
    ensures WireOk(c, w[g := wg], delta, g)
  {
    var left, right := c.gates[g].inFrom[0], c.gates[g].inFrom[1];
    FreeXorStep(w[left].zero, w[right].zero, delta);
  }

  /** A random pair with bytes 0..4 cleared satisfies WireOk at a gate that is
      neither XOR nor OUTPUT. */
  lemma RandomPairOk(c: Circuit, w: seq<WireLabelSet>, delta: Label, g: int, tail: seq<byte>, wg: WireLabelSet)
    requires 0 <= g < |c.gates| == |w| && c.gates[g].gateType != Xor && c.gates[g].gateType != Output
    requires |tail| == 11 && wg.zero == Zeros(5) + tail && wg.one == XorLabel(wg.zero, delta)
    ensures WireOk(c, w[g := wg], delta, g)
  {
    assert wg.zero[..5] == Zeros(5);
  }

  /** The masks garbleGate reads make getGatePermutation's row list agree with
      EntryRow. */
  lemma GateLocsAreRows(c: Circuit, w: seq<WireLabelSet>, g: int, masks: seq<Bit>, gateLocs: seq<nat>)
    requires 0 <= g < |c.gates| == |w| && RefsInRange(c, g) && GarbleableGate(c.gates[g])
    requires |gateLocs| == 4
    requires TableSize(c.gates[g].gateType) >= 2 ==>
      |masks| >= 1 && masks[0] == LsbBit(w[c.gates[g].inFrom[0]].zero)
    requires TableSize(c.gates[g].gateType) == 2 ==>
      gateLocs[masks[0]] == 0 && gateLocs[1 - masks[0]] == 1
    requires TableSize(c.gates[g].gateType) == 4 ==>
      |masks| >= 2 && masks[1] == LsbBit(w[c.gates[g].inFrom[1]].zero) &&
      forall i :: 0 <= i < 4 ==> gateLocs[PermIndex(masks[0], masks[1], i)] == i
    ensures forall i :: 0 <= i < TableSize(c.gates[g].gateType) ==> gateLocs[i] == EntryRow(c, w, g, i)
  {
    forall i | 0 <= i < TableSize(c.gates[g].gateType)
      ensures gateLocs[i] == EntryRow(c, w, g, i)
    {
      if TableSize(c.gates[g].gateType) == 4 {
        PermIndexInvolution(masks[0], masks[1], i);
        assert gateLocs[PermIndex(masks[0], masks[1], PermIndex(masks[0], masks[1], i))] == PermIndex(masks[0], masks[1], i);
      }
    }
  }

  /** garbleGate's loop over the table entries: entry i is encrypted under the
      input labels its bits select and written to row gateLocs[i]. */
  method EncryptRows(c: Circuit, w: seq<WireLabelSet>, g: int, h: Hash, gateLocs: seq<nat>) returns (t: seq<Label>)
    requires 0 <= g < |c.gates| == |w| && RefsInRange(c, g) && GarbleableGate(c.gates[g])
    requires |gateLocs| == 4
    requires forall i :: 0 <= i < TableSize(c.gates[g].gateType) ==> gateLocs[i] == EntryRow(c, w, g, i)
    ensures t == GateTable(c, w, g, h)
  {
    var tableSize := TableSize(c.gates[g].gateType);
    RowsArePermuted(c, w, g, gateLocs);
    var table := new Label[tableSize](_ => ZeroLabel());
    FillRows(c, w, g, h, gateLocs, table);
    t := table[..];
    RowsMakeTable(c, w, g, h, gateLocs, t);
  }

  /** The loop itself: entry i goes to row gateLocs[i]. */
  method FillRows(c: Circuit, w: seq<WireLabelSet>, g: int, h: Hash, gateLocs: seq<nat>, table: array<Label>)
    requires 0 <= g < |c.gates| == |w| && RefsInRange(c, g) && GarbleableGate(c.gates[g])
    requires |gateLocs| == 4 && table.Length == TableSize(c.gates[g].gateType)
    requires forall i :: 0 <= i < table.Length ==> gateLocs[i] == EntryRow(c, w, g, i)
    requires forall i :: 0 <= i < table.Length ==> gateLocs[i] < table.Length
    requires forall i, j :: 0 <= i < j < table.Length ==> gateLocs[i] != gateLocs[j]
    modifies table
    ensures forall j :: 0 <= j < table.Length ==> table[gateLocs[j]] == Entry(c, w, g, h, j)
  {
    for i := 0 to table.Length
      invariant forall j :: 0 <= j < i ==> table[gateLocs[j]] == Entry(c, w, g, h, j)
    {
      var row := gateLocs[i];
      table[row] := EncryptEntry(c, w, g, h, i, row);
    }
  }

  /** A table holding entry i at row gateLocs[i] for every entry is GateTable. */
  lemma RowsMakeTable(c: Circuit, w: seq<WireLabelSet>, g: int, h: Hash, gateLocs: seq<nat>, t: seq<Label>)
    requires 0 <= g < |c.gates| == |w| && RefsInRange(c, g) && GarbleableGate(c.gates[g])
    requires |gateLocs| == 4 && |t| == TableSize(c.gates[g].gateType)
    requires forall i :: 0 <= i < TableSize(c.gates[g].gateType) ==> gateLocs[i] == EntryRow(c, w, g, i)
    requires forall j :: 0 <= j < |t| ==> gateLocs[j] < |t| && t[gateLocs[j]] == Entry(c, w, g, h, j)
    ensures t == GateTable(c, w, g, h)
  {
    var table := GateTable(c, w, g, h);
    forall r | 0 <= r < |t|
      ensures t[r] == table[r]
    {
      EntryRowInvolution(c, w, g, r);
      assert gateLocs[EntryRow(c, w, g, r)] == r;
    }
  }

  /** The rows gateLocs assigns to the entries are distinct and in range, and
      entry EntryRow(r) lands on row r. */
  lemma RowsArePermuted(c: Circuit, w: seq<WireLabelSet>, g: int, gateLocs: seq<nat>)
    requires 0 <= g < |c.gates| == |w| && RefsInRange(c, g) && GarbleableGate(c.gates[g])
    requires |gateLocs| == 4
    requires forall i :: 0 <= i < TableSize(c.gates[g].gateType) ==> gateLocs[i] == EntryRow(c, w, g, i)
    ensures forall i :: 0 <= i < TableSize(c.gates[g].gateType) ==> gateLocs[i] < TableSize(c.gates[g].gateType)
    ensures forall i, j :: 0 <= i < j < TableSize(c.gates[g].gateType) ==> gateLocs[i] != gateLocs[j]
  {
    var n := TableSize(c.gates[g].gateType);
    forall i | 0 <= i < n
      ensures gateLocs[i] < n
    {
      EntryRowInvolution(c, w, g, i);
    }
    forall i, j | 0 <= i < j < n
      ensures gateLocs[i] != gateLocs[j]
    {
      EntryRowInvolution(c, w, g, i);
      EntryRowInvolution(c, w, g, j);
    }
  }

  /** One pass of garbleGate's loop: the output bit of entry i, the input labels
      selected by getLabelBits(i), encrypted under row. */
  method EncryptEntry(c: Circuit, w: seq<WireLabelSet>, g: int, h: Hash, i: nat, row: nat) returns (e: Label)
    requires 0 <= g < |c.gates| == |w| && RefsInRange(c, g) && GarbleableGate(c.gates[g])
    requires i < TableSize(c.gates[g].gateType) && row == EntryRow(c, w, g, i)
    ensures e == Entry(c, w, g, h, i)
  {
    var gate := c.gates[g];
    var b := Truth(gate.gateType, i);
    var bits := GetLabelBits(i);
    var outLabel := w[g].Get(b);
    if TableSize(gate.gateType) == 4 {
      var inLabel1 := w[gate.inFrom[0]].Get(bits.0 == 1);
      var inLabel2 := w[gate.inFrom[1]].Get(bits.1 == 1);
      e := EncryptTableEntry(h, row, inLabel1, Some(inLabel2), outLabel);
    } else {
      var inLabel1 := w[gate.inFrom[0]].Get(bits.1 == 1);
      e := EncryptTableEntry(h, row, inLabel1, None, outLabel);
    }
  }

  /** The two assignments that end assignWireLabelsRecurs: the new pair at g,
      and g marked as set. */
  method StoreWire(w: array<WireLabelSet>, isSet: array<bool>, g: int, wg: WireLabelSet)
    requires 0 <= g < w.Length == isSet.Length
    modifies w, isSet
    ensures w[..] == old(w[..])[g := wg] && isSet[..] == old(isSet[..])[g := true]
  {
    w[g] := wg;
    isSet[g] := true;
  }

  /** Writing a well-formed pair at an unassigned gate that no isSet gate
      reads keeps the assignment well formed. */
  lemma AssignPreserves(c: Circuit, before: seq<WireLabelSet>, isSet: seq<bool>, after: seq<WireLabelSet>, g: int, delta: Label)
    requires 0 <= g < |c.gates| == |before| == |after| == |isSet|
    requires after == before[g := after[g]] && isSet[g]
    requires LabelsOk(c, before, isSet[g := false], delta)
    requires WireOk(c, after, delta, g)
    requires c.gates[g].gateType == Xor ==> isSet[c.gates[g].inFrom[0]] && isSet[c.gates[g].inFrom[1]]
    ensures LabelsOk(c, after, isSet, delta)
  {
    forall k | 0 <= k < |after| && isSet[k] && k != g
      ensures WireOk(c, after, delta, k)
    {
      assert WireOk(c, before, delta, k);
      if c.gates[k].gateType == Xor {
        assert isSet[g := false][c.gates[k].inFrom[0]] && isSet[g := false][c.gates[k].inFrom[1]];
      }
    }
  }
}
