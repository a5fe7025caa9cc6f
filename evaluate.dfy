/** Evaluation of a garbled circuit (the evaluator's half of simplegarble.go):
    what each gate's label is, the recursive evaluator with its visited /
    calculated / labels scratch arrays, and the proof that evaluating a
    correctly garbled circuit on the labels of a plaintext input yields the
    labels of the plaintext output. */
module Evaluate {

  import opened Common
  import opened Circuits
  import opened Garble

  /** Go's int expression 1 << k for a non-negative shift: 2^k, the sign bit
      for k = 63, and 0 once every bit is shifted out. */
  function GoShiftOne(k: nat): (r: int)
    ensures k < 63 ==> r == Pow2(k)
    ensures k >= 64 ==> r == 0
  {
    if k >= 64 then 0 else if k == 63 then -(Pow2(63) as int) else Pow2(k)
  }

  // ---------------------------------------------------------------------------
  // What the evaluator computes

  /** The label evaluateGarbledGate obtains for gate g of a valid circuit, or
      None where it reports failure or Go would panic: an INPUT gate takes its
      input label; a CONST gate with no inputs the first table row in the clear;
      any other gate needs 1 << (number of inputs) rows (XOR exempt) and its
      inputs' labels, and then XORs them (XOR, exactly two inputs), decrypts row
      2*lsb1 + lsb2 (two inputs) or row lsb1 (one input), or yields the zero
      label (three or more inputs). */
  function GarbledValue(c: Circuit, tables: seq<seq<Label>>, inLabels: seq<Label>, h: Hash, g: int): (r: Option<Label>)
    requires c.ValidCircuit() && 0 <= g < |c.gates|
    decreases c.Rank(g)
  {
    var gate := c.gates[g];
    if gate.gateType == Input then
      if g < |inLabels| then Some(inLabels[g]) else None
    else if gate.gateType == Const then
      if g < |tables| && |gate.inFrom| == 0 && |tables[g]| > 0 then Some(tables[g][0]) else None
    else
      if g >= |tables| then None
      else if gate.gateType != Xor && |tables[g]| != GoShiftOne(|gate.inFrom|) then None
      else if |gate.inFrom| == 0 then None
      else
        assert c.RefsBelow(g);
        var v1 := GarbledValue(c, tables, inLabels, h, gate.inFrom[0]);
        var v2 := if |gate.inFrom| == 2 then GarbledValue(c, tables, inLabels, h, gate.inFrom[1]) else None;
        Combine(gate.gateType, |gate.inFrom|, tables[g], h, v1, v2)
  }

  /** The last step of evaluating a non-input, non-constant gate with n >= 1
      inputs, given its table and its inputs' results. */
  function Combine(t: GateType, n: nat, table: seq<Label>, h: Hash, v1: Option<Label>, v2: Option<Label>): Option<Label>
    requires t != Xor && n == 2 ==> |table| == 4
    requires t != Xor && n == 1 ==> |table| == 2
  {
    if v1.None? || (n == 2 && v2.None?) then None
    else if t == Xor then
      if n == 2 then Some(XorLabel(v1.value, v2.value)) else None
    else if n == 2 then
      var row := 2 * LsbBit(v1.value) + LsbBit(v2.value);
      Some(DecryptTableEntry(h, row, v1.value, v2, table[row]))
    else if n == 1 then
      var row := LsbBit(v1.value);
      Some(DecryptTableEntry(h, row, v1.value, None, table[row]))
    else Some(ZeroLabel())
  }

  /** The plaintext value of gate g on input bits x. */
  function PlainValue(c: Circuit, x: seq<bool>, g: int): bool
    requires c.ValidCircuit() && 0 <= g < |c.gates|
    decreases c.Rank(g)
  {
    var gate := c.gates[g];
    if gate.gateType == Input then g < |x| && x[g]
    else if gate.gateType == Const then gate.constVal
    else if |gate.inFrom| == 0 then false
    else
      assert c.RefsBelow(g);
      var a := PlainValue(c, x, gate.inFrom[0]);
      var b := |gate.inFrom| >= 2 && PlainValue(c, x, gate.inFrom[1]);
      if gate.gateType == And then a && b
      else if gate.gateType == Or then a || b
      else if gate.gateType == Xor then a != b
      else if gate.gateType == Not then !a
      else a
  }

  // ---------------------------------------------------------------------------
  // Correctness of garbling

  function BitOf(b: bool): Bit
  {
    if b then 1 else 0
  }

  /** The point-and-permute bit of the label for b is b XOR the mask bit. */
  lemma LsbOfGet(c: Circuit, w: seq<WireLabelSet>, delta: Label, k: int, b: bool)
    requires 0 <= k < |c.gates| == |w| && Lsb(delta) && WireOk(c, w, delta, k)
    ensures LsbBit(w[k].Get(b)) == BitXor(BitOf(b), LsbBit(w[k].zero))
  {
    PermuteBitsDiffer(c, w, delta, k);
  }

  /** Free XOR: the XOR of the labels for a and b is the label for a != b. */
  lemma XorGateCorrect(c: Circuit, w: seq<WireLabelSet>, delta: Label, g: int, a: bool, b: bool)
    requires c.ValidCircuit() && c.numInputWires <= g < |c.gates| == |w|
    requires c.gates[g].gateType == Xor && |c.gates[g].inFrom| == 2 && RefsInRange(c, g)
    requires forall k :: 0 <= k < |c.gates| ==> WireOk(c, w, delta, k)
    ensures XorLabel(w[c.gates[g].inFrom[0]].Get(a), w[c.gates[g].inFrom[1]].Get(b)) == w[g].Get(a != b)
  {
    var l, r := c.gates[g].inFrom[0], c.gates[g].inFrom[1];
    InputsAreNotOutputs(c, g, 0);
    InputsAreNotOutputs(c, g, 1);
    assert WireOk(c, w, delta, g) && WireOk(c, w, delta, l) && WireOk(c, w, delta, r);
    var l0, r0 := w[l].zero, w[r].zero;
    if a && !b {
      // (l0 ^ delta) ^ r0 == (l0 ^ r0) ^ delta == l0 ^ (r0 ^ delta)
      XorLabelAssoc(l0, delta, r0);
      XorLabelComm(delta, r0);
      XorLabelAssoc(l0, r0, delta);
    } else if a && b {
      // (l0 ^ delta) ^ (r0 ^ delta) == l0 ^ r0
      XorLabelAssoc(l0, delta, XorLabel(r0, delta));
      XorLabelComm(r0, delta);
      XorLabelAssoc(delta, delta, r0);
      XorLabelCancel(ZeroLabel(), delta);
      SelfXorZero(delta);
      XorZero(r0);
    }
  }

  lemma SelfXorZero(a: Label)
    ensures XorLabel(a, a) == ZeroLabel()
  {
    var r := XorLabel(a, a);
    forall i | 0 <= i < 16 ensures r[i] == ZeroLabel()[i] {
    }
  }

  lemma XorZero(a: Label)
    ensures XorLabel(ZeroLabel(), a) == a
  {
    var r := XorLabel(ZeroLabel(), a);
    forall i | 0 <= i < 16 ensures r[i] == a[i] {
    }
  }

  /** What the garbler guarantees about a two-input gate with a four-row table. */
  predicate FourRowReady(c: Circuit, w: seq<WireLabelSet>, tables: seq<seq<Label>>, delta: Label, h: Hash, g: int)
  {
    && 0 <= g < |c.gates| == |w| == |tables| && TableSize(c.gates[g].gateType) == 4
    && RefsInRange(c, g) && GarbleableGate(c.gates[g]) && |c.gates[g].inFrom| == 2
    && Lsb(delta) && WireOk(c, w, delta, c.gates[g].inFrom[0]) && WireOk(c, w, delta, c.gates[g].inFrom[1])
    && tables[g] == GateTable(c, w, g, h)
  }

  /** A four-row gate: the row the evaluator picks holds entry 2a+b, which
      decrypts to the label of the gate's truth value. */
  lemma FourRowCorrect(c: Circuit, w: seq<WireLabelSet>, tables: seq<seq<Label>>, delta: Label, h: Hash, g: int, a: bool, b: bool)
    requires FourRowReady(c, w, tables, delta, h, g)
    ensures
      var v1, v2 := w[c.gates[g].inFrom[0]].Get(a), w[c.gates[g].inFrom[1]].Get(b);
      var row := 2 * LsbBit(v1) + LsbBit(v2);
      row < 4 && |tables[g]| == 4 &&
      DecryptTableEntry(h, row, v1, Some(v2), tables[g][row]) == w[g].Get(Truth(c.gates[g].gateType, 2 * BitOf(a) + BitOf(b)))
  {
    var l, r := c.gates[g].inFrom[0], c.gates[g].inFrom[1];
    var v1, v2 := w[l].Get(a), w[r].Get(b);
    var i := 2 * BitOf(a) + BitOf(b);
    var row := 2 * LsbBit(v1) + LsbBit(v2);
    EntryBits(a, b);
    RowOfFour(c, w, delta, g, a, b);
    TableRowIsEntry(c, w, g, h, tables[g], i);
    EntryOfFour(c, w, g, h, a, b);
    DecryptEncrypt(h, row, v1, Some(v2), w[g].Get(Truth(c.gates[g].gateType, i)));
  }

  /** The evaluator's row 2*lsb1 + lsb2 is where the garbler put entry 2a+b. */
  lemma RowOfFour(c: Circuit, w: seq<WireLabelSet>, delta: Label, g: int, a: bool, b: bool)
    requires 0 <= g < |c.gates| == |w| && TableSize(c.gates[g].gateType) == 4
    requires RefsInRange(c, g) && GarbleableGate(c.gates[g]) && |c.gates[g].inFrom| == 2
    requires Lsb(delta) && WireOk(c, w, delta, c.gates[g].inFrom[0]) && WireOk(c, w, delta, c.gates[g].inFrom[1])
    ensures 2 * BitOf(a) + BitOf(b) < 4
    ensures 2 * LsbBit(w[c.gates[g].inFrom[0]].Get(a)) + LsbBit(w[c.gates[g].inFrom[1]].Get(b))
         == EntryRow(c, w, g, 2 * BitOf(a) + BitOf(b))
  {
    var m0, m1 := LsbBit(w[c.gates[g].inFrom[0]].zero), LsbBit(w[c.gates[g].inFrom[1]].zero);
    LsbOfGet(c, w, delta, c.gates[g].inFrom[0], a);
    LsbOfGet(c, w, delta, c.gates[g].inFrom[1], b);
    PermIndexOfBits(m0, m1, a, b);
  }

  lemma PermIndexOfBits(m0: Bit, m1: Bit, a: bool, b: bool)
    ensures 2 * BitOf(a) + BitOf(b) < 4
    ensures PermIndex(m0, m1, 2 * BitOf(a) + BitOf(b)) == 2 * BitXor(BitOf(a), m0) + BitXor(BitOf(b), m1)
  {
    EntryBits(a, b);
  }

  /** Entry 2a+b encrypts the output label under the labels for a and b. */
  lemma EntryOfFour(c: Circuit, w: seq<WireLabelSet>, g: int, h: Hash, a: bool, b: bool)
    requires 0 <= g < |c.gates| == |w| && TableSize(c.gates[g].gateType) == 4
    requires RefsInRange(c, g) && GarbleableGate(c.gates[g]) && |c.gates[g].inFrom| == 2
    ensures 2 * BitOf(a) + BitOf(b) < 4
    ensures Entry(c, w, g, h, 2 * BitOf(a) + BitOf(b))
         == EncryptTableEntry(h, EntryRow(c, w, g, 2 * BitOf(a) + BitOf(b)),
                              w[c.gates[g].inFrom[0]].Get(a), Some(w[c.gates[g].inFrom[1]].Get(b)),
                              w[g].Get(Truth(c.gates[g].gateType, 2 * BitOf(a) + BitOf(b))))
  {
    EntryBits(a, b);
  }

  lemma EntryBits(a: bool, b: bool)
    ensures 2 * BitOf(a) + BitOf(b) < 4
    ensures ((2 * BitOf(a) + BitOf(b)) / 2) % 2 == 1 <==> a
    ensures (2 * BitOf(a) + BitOf(b)) % 2 == 1 <==> b
  {
  }

  /** Entry i of a gate's table sits at row EntryRow(i). */
  lemma TableRowIsEntry(c: Circuit, w: seq<WireLabelSet>, g: int, h: Hash, table: seq<Label>, i: nat)
    requires 0 <= g < |c.gates| == |w| && RefsInRange(c, g) && GarbleableGate(c.gates[g])
    requires i < TableSize(c.gates[g].gateType) && table == GateTable(c, w, g, h)
    ensures EntryRow(c, w, g, i) < |table| && table[EntryRow(c, w, g, i)] == Entry(c, w, g, h, i)
  {
    EntryRowInvolution(c, w, g, i);
  }

  /** A two-row gate: the row the evaluator picks holds entry a. */
  lemma TwoRowCorrect(c: Circuit, w: seq<WireLabelSet>, tables: seq<seq<Label>>, delta: Label, h: Hash, g: int, a: bool)
    requires 0 <= g < |c.gates| == |w| == |tables| && TableSize(c.gates[g].gateType) == 2
    requires RefsInRange(c, g) && GarbleableGate(c.gates[g]) && |c.gates[g].inFrom| == 1
    requires Lsb(delta) && WireOk(c, w, delta, c.gates[g].inFrom[0])
    requires tables[g] == GateTable(c, w, g, h)
    ensures
      var v1 := w[c.gates[g].inFrom[0]].Get(a);
      var row := LsbBit(v1);
      |tables[g]| == 2 &&
      DecryptTableEntry(h, row, v1, None, tables[g][row]) == w[g].Get(Truth(c.gates[g].gateType, BitOf(a)))
  {
    var l := c.gates[g].inFrom[0];
    var v1 := w[l].Get(a);
    LsbOfGet(c, w, delta, l, a);
    var i := BitOf(a);
    var row := LsbBit(v1);
    assert row == EntryRow(c, w, g, i);
    TableRowIsEntry(c, w, g, h, tables[g], i);
    DecryptEncrypt(h, row, v1, None, w[g].Get(Truth(c.gates[g].gateType, i)));
  }

  /** The input labels of plaintext input x: label x[i] of input wire i. */
  predicate EncodesInput(c: Circuit, w: seq<WireLabelSet>, x: seq<bool>, inLabels: seq<Label>)
    requires |w| == |c.gates|
  {
    && 0 <= c.numInputWires == |x| == |inLabels| <= |w|
    && forall i :: 0 <= i < |x| ==> inLabels[i] == w[i].Get(x[i])
  }

  /** Correctness of the garbling scheme: on a well-garbled circuit whose gates
      have exactly their arity, every gate evaluates to the label of its
      plaintext value. */
  lemma {:induction false} GarbledValueCorrect(c: Circuit, w: seq<WireLabelSet>, tables: seq<seq<Label>>, delta: Label, h: Hash,
                                               x: seq<bool>, inLabels: seq<Label>, g: int)
    requires WellGarbled(c, w, tables, delta, h) && ExactArities(c) && AllGarbleable(c)
    requires EncodesInput(c, w, x, inLabels)
    requires 0 <= g < |c.gates|
    ensures GarbledValue(c, tables, inLabels, h, g) == Some(w[g].Get(PlainValue(c, x, g)))
    decreases c.Rank(g)
  {
    var gate := c.gates[g];
    if gate.gateType == Input {
      return;
    }
    assert c.RefsBelow(g);
    assert |gate.inFrom| == Arity(gate.gateType);
    GarbledValueCorrect(c, w, tables, delta, h, x, inLabels, gate.inFrom[0]);
    if |gate.inFrom| == 2 {
      GarbledValueCorrect(c, w, tables, delta, h, x, inLabels, gate.inFrom[1]);
      TwoInputStep(c, w, tables, delta, h, x, inLabels, g);
    } else {
      OneInputStep(c, w, tables, delta, h, x, inLabels, g);
    }
  }

  /** The induction step for a two-input gate (XOR, AND, OR). */
  lemma TwoInputStep(c: Circuit, w: seq<WireLabelSet>, tables: seq<seq<Label>>, delta: Label, h: Hash,
                     x: seq<bool>, inLabels: seq<Label>, g: int)
    requires WellGarbled(c, w, tables, delta, h) && ExactArities(c) && AllGarbleable(c)
    requires c.numInputWires <= g < |c.gates| && |c.gates[g].inFrom| == 2 && c.RefsBelow(g)
    requires GarbledValue(c, tables, inLabels, h, c.gates[g].inFrom[0])
          == Some(w[c.gates[g].inFrom[0]].Get(PlainValue(c, x, c.gates[g].inFrom[0])))
    requires GarbledValue(c, tables, inLabels, h, c.gates[g].inFrom[1])
          == Some(w[c.gates[g].inFrom[1]].Get(PlainValue(c, x, c.gates[g].inFrom[1])))
    ensures GarbledValue(c, tables, inLabels, h, g) == Some(w[g].Get(PlainValue(c, x, g)))
  {
    var gate := c.gates[g];
    assert GarbleableGate(gate) && gate.gateType != Input;
    assert RefsInRange(c, g);
    if gate.gateType == Xor {
      XorStep(c, w, tables, delta, h, x, inLabels, g);
    } else {
      assert tables[g] == GateTable(c, w, g, h);
      assert WireOk(c, w, delta, gate.inFrom[0]) && WireOk(c, w, delta, gate.inFrom[1]);
      assert FourRowReady(c, w, tables, delta, h, g);
      FourRowStep(c, w, tables, delta, h, x, inLabels, g);
    }
  }

  lemma XorStep(c: Circuit, w: seq<WireLabelSet>, tables: seq<seq<Label>>, delta: Label, h: Hash,
                x: seq<bool>, inLabels: seq<Label>, g: int)
    requires c.ValidCircuit() && c.numInputWires <= g < |c.gates| == |w| == |tables|
    requires c.gates[g].gateType == Xor && |c.gates[g].inFrom| == 2 && c.RefsBelow(g) && RefsInRange(c, g)
    requires forall k :: 0 <= k < |c.gates| ==> WireOk(c, w, delta, k)
    requires GarbledValue(c, tables, inLabels, h, c.gates[g].inFrom[0])
          == Some(w[c.gates[g].inFrom[0]].Get(PlainValue(c, x, c.gates[g].inFrom[0])))
    requires GarbledValue(c, tables, inLabels, h, c.gates[g].inFrom[1])
          == Some(w[c.gates[g].inFrom[1]].Get(PlainValue(c, x, c.gates[g].inFrom[1])))
    ensures GarbledValue(c, tables, inLabels, h, g) == Some(w[g].Get(PlainValue(c, x, g)))
  {
    GarbledValueOfTwo(c, tables, inLabels, h, g);
    PlainValueOfTwo(c, x, g);
    XorGateCorrect(c, w, delta, g, PlainValue(c, x, c.gates[g].inFrom[0]), PlainValue(c, x, c.gates[g].inFrom[1]));
  }

  lemma FourRowStep(c: Circuit, w: seq<WireLabelSet>, tables: seq<seq<Label>>, delta: Label, h: Hash,
                    x: seq<bool>, inLabels: seq<Label>, g: int)
    requires c.ValidCircuit() && c.numInputWires <= g < |c.gates| == |w| == |tables|
    requires c.gates[g].gateType in {And, Or} && c.RefsBelow(g) && FourRowReady(c, w, tables, delta, h, g)
    requires GarbledValue(c, tables, inLabels, h, c.gates[g].inFrom[0])
          == Some(w[c.gates[g].inFrom[0]].Get(PlainValue(c, x, c.gates[g].inFrom[0])))
    requires GarbledValue(c, tables, inLabels, h, c.gates[g].inFrom[1])
          == Some(w[c.gates[g].inFrom[1]].Get(PlainValue(c, x, c.gates[g].inFrom[1])))
    ensures GarbledValue(c, tables, inLabels, h, g) == Some(w[g].Get(PlainValue(c, x, g)))
  {
    var l, r := c.gates[g].inFrom[0], c.gates[g].inFrom[1];
    var a, b := PlainValue(c, x, l), PlainValue(c, x, r);
    var v1, v2 := w[l].Get(a), w[r].Get(b);
    var t := Truth(c.gates[g].gateType, 2 * BitOf(a) + BitOf(b));
    FourRowCorrect(c, w, tables, delta, h, g, a, b);
    GarbledValueOfFour(c, tables, inLabels, h, g, v1, v2, w[g].Get(t));
    PlainValueOfAndOr(c, x, g, a, b);
  }

  /** The induction step for a one-input gate (NOT, OUTPUT). */
  lemma OneInputStep(c: Circuit, w: seq<WireLabelSet>, tables: seq<seq<Label>>, delta: Label, h: Hash,
                     x: seq<bool>, inLabels: seq<Label>, g: int)
    requires WellGarbled(c, w, tables, delta, h) && ExactArities(c) && AllGarbleable(c)
    requires c.numInputWires <= g < |c.gates| && |c.gates[g].inFrom| == 1 && c.RefsBelow(g)
    requires GarbledValue(c, tables, inLabels, h, c.gates[g].inFrom[0])
          == Some(w[c.gates[g].inFrom[0]].Get(PlainValue(c, x, c.gates[g].inFrom[0])))
    ensures GarbledValue(c, tables, inLabels, h, g) == Some(w[g].Get(PlainValue(c, x, g)))
  {
    var gate := c.gates[g];
    var l := gate.inFrom[0];
    var a := PlainValue(c, x, l);
    assert GarbleableGate(gate) && gate.gateType != Input && |gate.inFrom| == Arity(gate.gateType);
    assert gate.gateType == Not || gate.gateType == Output;
    assert RefsInRange(c, g);
    assert tables[g] == GateTable(c, w, g, h);
    GarbledValueOfOne(c, tables, inLabels, h, g);
    PlainValueOfOne(c, x, g);
    assert WireOk(c, w, delta, l);
    TwoRowCorrect(c, w, tables, delta, h, g, a);
  }

  /** GarbledValue of a two-input gate whose table has the size the evaluator checks. */
  lemma GarbledValueOfTwo(c: Circuit, tables: seq<seq<Label>>, inLabels: seq<Label>, h: Hash, g: int)
    requires c.ValidCircuit() && c.numInputWires <= g < |c.gates| && g < |tables|
    requires c.gates[g].gateType != Const && |c.gates[g].inFrom| == 2
    requires c.gates[g].gateType != Xor ==> |tables[g]| == 4
    requires c.RefsBelow(g)
    requires GarbledValue(c, tables, inLabels, h, c.gates[g].inFrom[0]).Some?
    requires GarbledValue(c, tables, inLabels, h, c.gates[g].inFrom[1]).Some?
    ensures
      var v1 := GarbledValue(c, tables, inLabels, h, c.gates[g].inFrom[0]).value;
      var v2 := GarbledValue(c, tables, inLabels, h, c.gates[g].inFrom[1]).value;
      GarbledValue(c, tables, inLabels, h, g) ==
        if c.gates[g].gateType == Xor then Some(XorLabel(v1, v2))
        else Some(DecryptTableEntry(h, 2 * LsbBit(v1) + LsbBit(v2), v1, Some(v2), tables[g][2 * LsbBit(v1) + LsbBit(v2)]))
  {
    assert GoShiftOne(2) == 4;
  }

  /** GarbledValue of an AND or OR gate from its inputs' labels. */
  lemma GarbledValueOfFour(c: Circuit, tables: seq<seq<Label>>, inLabels: seq<Label>, h: Hash, g: int, v1: Label, v2: Label, out: Label)
    requires c.ValidCircuit() && c.numInputWires <= g < |c.gates| && g < |tables|
    requires c.gates[g].gateType in {And, Or} && |c.gates[g].inFrom| == 2 && |tables[g]| == 4
    requires c.RefsBelow(g)
    requires GarbledValue(c, tables, inLabels, h, c.gates[g].inFrom[0]) == Some(v1)
    requires GarbledValue(c, tables, inLabels, h, c.gates[g].inFrom[1]) == Some(v2)
    requires DecryptTableEntry(h, 2 * LsbBit(v1) + LsbBit(v2), v1, Some(v2), tables[g][2 * LsbBit(v1) + LsbBit(v2)]) == out
    ensures GarbledValue(c, tables, inLabels, h, g) == Some(out)
  {
    assert GoShiftOne(2) == 4;
  }

  /** GarbledValue of a one-input gate other than XOR. */
  lemma GarbledValueOfOne(c: Circuit, tables: seq<seq<Label>>, inLabels: seq<Label>, h: Hash, g: int)
    requires c.ValidCircuit() && c.numInputWires <= g < |c.gates| && g < |tables|
    requires c.gates[g].gateType != Const && c.gates[g].gateType != Xor && |c.gates[g].inFrom| == 1
    requires |tables[g]| == 2
    requires c.RefsBelow(g)
    requires GarbledValue(c, tables, inLabels, h, c.gates[g].inFrom[0]).Some?
    ensures
      var v1 := GarbledValue(c, tables, inLabels, h, c.gates[g].inFrom[0]).value;
      GarbledValue(c, tables, inLabels, h, g) == Some(DecryptTableEntry(h, LsbBit(v1), v1, None, tables[g][LsbBit(v1)]))
  {
    assert GoShiftOne(1) == 2;
  }

  lemma PlainValueOfTwo(c: Circuit, x: seq<bool>, g: int)
    requires c.ValidCircuit() && c.numInputWires <= g < |c.gates|
    requires c.gates[g].gateType != Const && |c.gates[g].inFrom| == 2 && c.RefsBelow(g)
    ensures
      var a, b := PlainValue(c, x, c.gates[g].inFrom[0]), PlainValue(c, x, c.gates[g].inFrom[1]);
      PlainValue(c, x, g) ==
        match c.gates[g].gateType
        case And => a && b
        case Or => a || b
        case Xor => a != b
        case Not => !a
        case _ => a
  {
  }

  lemma PlainValueOfOne(c: Circuit, x: seq<bool>, g: int)
    requires c.ValidCircuit() && c.numInputWires <= g < |c.gates|
    requires (c.gates[g].gateType == Not || c.gates[g].gateType == Output) && |c.gates[g].inFrom| == 1 && c.RefsBelow(g)
    ensures
      var a := PlainValue(c, x, c.gates[g].inFrom[0]);
      PlainValue(c, x, g) == if c.gates[g].gateType == Not then !a else a
  {
  }

  /** An AND or OR gate computes truth table entry 2a+b. */
  lemma PlainValueOfAndOr(c: Circuit, x: seq<bool>, g: int, a: bool, b: bool)
    requires c.ValidCircuit() && c.numInputWires <= g < |c.gates|
    requires c.gates[g].gateType in {And, Or} && |c.gates[g].inFrom| == 2 && c.RefsBelow(g)
    requires a == PlainValue(c, x, c.gates[g].inFrom[0]) && b == PlainValue(c, x, c.gates[g].inFrom[1])
    ensures PlainValue(c, x, g) == Truth(c.gates[g].gateType, 2 * BitOf(a) + BitOf(b))
  {
    TruthOfTwo(c.gates[g].gateType, a, b);
  }

  /** The truth table entry 2a+b of a two-input gate is the gate applied to a, b. */
  lemma TruthOfTwo(t: GateType, a: bool, b: bool)
    ensures t == And ==> Truth(t, 2 * BitOf(a) + BitOf(b)) == (a && b)
    ensures t == Or ==> Truth(t, 2 * BitOf(a) + BitOf(b)) == (a || b)
  {
    EntryBits(a, b);
  }

  // ---------------------------------------------------------------------------
  // The recursive evaluator

  /** The number of gates not yet visited: what every recursive call lowers. */
  function CountFalse(s: seq<bool>): nat
  {
    if s == [] then 0 else CountFalse(s[..|s| - 1]) + (if s[|s| - 1] then 0 else 1)
  }

  /** Setting flags never raises the count, and setting one more lowers it. */
  lemma {:induction false} CountFalseMono(a: seq<bool>, b: seq<bool>)
    requires |a| == |b| && forall k :: 0 <= k < |a| && a[k] ==> b[k]
    ensures CountFalse(b) <= CountFalse(a)
    ensures (exists k :: 0 <= k < |a| && !a[k] && b[k]) ==> CountFalse(b) < CountFalse(a)
  {
    if a != [] {
      var n := |a| - 1;
      CountFalseMono(a[..n], b[..n]);
      if exists k :: 0 <= k < |a| && !a[k] && b[k] {
        var k :| 0 <= k < |a| && !a[k] && b[k];
        if k < n {
          assert !a[..n][k] && b[..n][k];
        }
      }
    }
  }

  /** Every calculated gate holds the label GarbledValue gives it. */
  predicate CacheOk(c: Circuit, tables: seq<seq<Label>>, inLabels: seq<Label>, h: Hash,
                    calculated: seq<bool>, labels: seq<Label>)
  {
    c.ValidCircuit() ==>
      && |calculated| == |labels| == |c.gates|
      && forall k :: 0 <= k < |c.gates| && calculated[k] ==> GarbledValue(c, tables, inLabels, h, k) == Some(labels[k])
  }

  /** Every gate visited but not calculated either fails or is still being
      evaluated further up the recursion, above rank bound. */
  predicate StackOk(c: Circuit, tables: seq<seq<Label>>, inLabels: seq<Label>, h: Hash,
                    visited: seq<bool>, calculated: seq<bool>, bound: int)
  {
    c.ValidCircuit() ==>
      && |visited| == |calculated| == |c.gates|
      && forall k :: 0 <= k < |c.gates| && visited[k] && !calculated[k] ==>
           GarbledValue(c, tables, inLabels, h, k).None? || c.Rank(k) > bound
  }

  /** Gates that became visited-but-not-calculated during a call all fail. */
  predicate NewStuckFail(c: Circuit, tables: seq<seq<Label>>, inLabels: seq<Label>, h: Hash,
                         oldVisited: seq<bool>, oldCalculated: seq<bool>, visited: seq<bool>, calculated: seq<bool>)
  {
    c.ValidCircuit() ==>
      && |oldVisited| == |oldCalculated| == |visited| == |calculated| == |c.gates|
      && forall k :: 0 <= k < |c.gates| && visited[k] && !calculated[k] && !(oldVisited[k] && !oldCalculated[k]) ==>
           GarbledValue(c, tables, inLabels, h, k).None?
  }

  /** evaluateGarbledGate (a method of SimpleGarbledCircuit; garb is the
      receiver): a gate visited but not calculated is a cycle and fails, a
      calculated gate returns its cached label, any other gate is marked
      visited, evaluated after its inputs, and cached on success. On a valid
      circuit it succeeds exactly when GarbledValue is defined and returns it. */
  method EvaluateGarbledGate(garb: GarbledCircuit, c: Circuit, g: int, visited: array<bool>, calculated: array<bool>,
                             labels: array<Label>, inputLabels: seq<Label>, h: Hash)
    returns (success: bool, result: Label)
    requires visited.Length == calculated.Length == labels.Length == |c.gates| && visited != calculated
    requires CacheOk(c, garb.garbledGates, inputLabels, h, calculated[..], labels[..])
    requires StackOk(c, garb.garbledGates, inputLabels, h, visited[..], calculated[..], c.Rank(g))
    modifies visited, calculated, labels
    decreases CountFalse(visited[..])
    ensures forall k :: 0 <= k < visited.Length && old(visited[k]) ==> visited[k]
    ensures forall k :: 0 <= k < calculated.Length && old(calculated[k]) ==> calculated[k]
    ensures forall k :: 0 <= k < calculated.Length && old(visited[k]) && !old(calculated[k]) ==> !calculated[k]
    ensures CacheOk(c, garb.garbledGates, inputLabels, h, calculated[..], labels[..])
    ensures NewStuckFail(c, garb.garbledGates, inputLabels, h, old(visited[..]), old(calculated[..]), visited[..], calculated[..])
    ensures !(0 <= g < |c.gates|) ==> !success
    ensures c.ValidCircuit() && 0 <= g < |c.gates| ==>
      (success <==> GarbledValue(c, garb.garbledGates, inputLabels, h, g).Some?) &&
      (success ==> result == GarbledValue(c, garb.garbledGates, inputLabels, h, g).value)
  {
    result := ZeroLabel();
    if !(0 <= g < visited.Length) {
      return false, result;
    }
    if visited[g] && !calculated[g] {
      return false, result;
    }
    if calculated[g] {
      return true, labels[g];
    }
    ghost var entryVisited := visited[..];
    visited[g] := true;
    CountFalseMono(entryVisited, visited[..]);
    success, result := EvaluateFresh(garb, c, g, visited, calculated, labels, inputLabels, h, entryVisited);
    if success {
      StoreLabel(c, garb.garbledGates, inputLabels, h, calculated, labels, g, result);
    }
  }

  /** The cache update at the end of evaluateGarbledGate: gate g is marked
      calculated with its label, which keeps every cached label right. */
  method StoreLabel(c: Circuit, tables: seq<seq<Label>>, inLabels: seq<Label>, h: Hash,
                    calculated: array<bool>, labels: array<Label>, g: int, result: Label)
    requires 0 <= g < calculated.Length == labels.Length == |c.gates|
    requires CacheOk(c, tables, inLabels, h, calculated[..], labels[..])
    requires c.ValidCircuit() ==> GarbledValue(c, tables, inLabels, h, g) == Some(result)
    modifies calculated, labels
    ensures calculated[..] == old(calculated[..])[g := true]
    ensures labels[..] == old(labels[..])[g := result]
    ensures CacheOk(c, tables, inLabels, h, calculated[..], labels[..])
  {
    calculated[g] := true;
    labels[g] := result;
  }

  /** evaluateGarbledGate on a gate it has just marked visited: an INPUT gate
      takes its input label, a CONST gate its first table row, and any other
      gate with a table of the right size goes on to its inputs. */
  method EvaluateFresh(garb: GarbledCircuit, c: Circuit, g: int, visited: array<bool>, calculated: array<bool>,
                       labels: array<Label>, inputLabels: seq<Label>, h: Hash, ghost entryVisited: seq<bool>)
    returns (success: bool, result: Label)
    requires visited.Length == calculated.Length == labels.Length == |c.gates| && visited != calculated
    requires 0 <= g < |c.gates| && visited[g] && !calculated[g]
    requires |entryVisited| == visited.Length && !entryVisited[g]
    requires forall k :: 0 <= k < visited.Length && entryVisited[k] ==> visited[k]
    requires CountFalse(visited[..]) < CountFalse(entryVisited)
    requires CacheOk(c, garb.garbledGates, inputLabels, h, calculated[..], labels[..])
    requires StackOk(c, garb.garbledGates, inputLabels, h, visited[..], calculated[..], c.Rank(g) - 1)
    modifies visited, calculated, labels
    decreases CountFalse(entryVisited), 1
    ensures forall k :: 0 <= k < visited.Length && old(visited[k]) ==> visited[k]
    ensures forall k :: 0 <= k < calculated.Length && old(calculated[k]) ==> calculated[k]
    ensures forall k :: 0 <= k < calculated.Length && old(visited[k]) && !old(calculated[k]) ==> !calculated[k]
    ensures CacheOk(c, garb.garbledGates, inputLabels, h, calculated[..], labels[..])
    ensures NewStuckFail(c, garb.garbledGates, inputLabels, h, old(visited[..]), old(calculated[..]), visited[..], calculated[..])
    ensures c.ValidCircuit() ==>
      (success <==> GarbledValue(c, garb.garbledGates, inputLabels, h, g).Some?) &&
      (success ==> result == GarbledValue(c, garb.garbledGates, inputLabels, h, g).value)
  {
    result := ZeroLabel();
    var gate := c.gates[g];
    var tables := garb.garbledGates;
    success := true;
    if gate.gateType == Input {
      if g < |inputLabels| {
        result := inputLabels[g];
      } else {
        success := false;
      }
    } else if gate.gateType == Const {
      if |gate.inFrom| == 0 && g < |tables| && |tables[g]| > 0 {
        result := tables[g][0];
      } else {
        success := false;
      }
    } else {
      success := false;
      if g < |tables| && (|tables[g]| == GoShiftOne(|gate.inFrom|) || gate.gateType == Xor) && |gate.inFrom| > 0 {
        success, result := EvaluateInputs(garb, c, g, visited, calculated, labels, inputLabels, h, entryVisited);
      }
    }
  }

  /** The default branch of evaluateGarbledGate once the table size checks
      out: evaluate the left input, then the right one when there are two, and
      combine their labels. */
  method EvaluateInputs(garb: GarbledCircuit, c: Circuit, g: int, visited: array<bool>, calculated: array<bool>,
                        labels: array<Label>, inputLabels: seq<Label>, h: Hash, ghost entryVisited: seq<bool>)
    returns (success: bool, result: Label)
    requires visited.Length == calculated.Length == labels.Length == |c.gates| && visited != calculated
    requires 0 <= g < |c.gates| && g < |garb.garbledGates| && visited[g] && !calculated[g]
    requires c.gates[g].gateType != Input && c.gates[g].gateType != Const && |c.gates[g].inFrom| > 0
    requires c.gates[g].gateType != Xor ==> |garb.garbledGates[g]| == GoShiftOne(|c.gates[g].inFrom|)
    requires |entryVisited| == visited.Length && !entryVisited[g]
    requires forall k :: 0 <= k < visited.Length && entryVisited[k] ==> visited[k]
    requires CountFalse(visited[..]) < CountFalse(entryVisited)
    requires CacheOk(c, garb.garbledGates, inputLabels, h, calculated[..], labels[..])
    requires StackOk(c, garb.garbledGates, inputLabels, h, visited[..], calculated[..], c.Rank(g) - 1)
    modifies visited, calculated, labels
    decreases CountFalse(entryVisited), 0
    ensures forall k :: 0 <= k < visited.Length && old(visited[k]) ==> visited[k]
    ensures forall k :: 0 <= k < calculated.Length && old(calculated[k]) ==> calculated[k]
    ensures forall k :: 0 <= k < calculated.Length && old(visited[k]) && !old(calculated[k]) ==> !calculated[k]
    ensures !calculated[g]
    ensures CacheOk(c, garb.garbledGates, inputLabels, h, calculated[..], labels[..])
    ensures NewStuckFail(c, garb.garbledGates, inputLabels, h, old(visited[..]), old(calculated[..]), visited[..], calculated[..])
    ensures c.ValidCircuit() ==>
      c.RefsBelow(g) &&
      var v1 := GarbledValue(c, garb.garbledGates, inputLabels, h, c.gates[g].inFrom[0]);
      var v2 := if |c.gates[g].inFrom| == 2 then GarbledValue(c, garb.garbledGates, inputLabels, h, c.gates[g].inFrom[1]) else None;
      var r := Combine(c.gates[g].gateType, |c.gates[g].inFrom|, garb.garbledGates[g], h, v1, v2);
      (success <==> r.Some?) && (success ==> result == r.value)
  {
    result := ZeroLabel();
    var gate := c.gates[g];
    var table := garb.garbledGates[g];
    assert c.ValidCircuit() ==> c.RefsBelow(g);
    var success1, label1 := EvaluateGarbledGate(garb, c, gate.inFrom[0], visited, calculated, labels, inputLabels, h);
    var success2, label2, hasLabel2 := true, ZeroLabel(), false;
    if |gate.inFrom| == 2 {
      CountFalseMono(entryVisited, visited[..]);
      success2, label2 := EvaluateGarbledGate(garb, c, gate.inFrom[1], visited, calculated, labels, inputLabels, h);
      hasLabel2 := true;
    }
    success := false;
    if success1 && success2 {
      success, result := CombineLabels(gate.gateType, |gate.inFrom|, table, h, label1, if hasLabel2 then Some(label2) else None);
    }
  }

  /** The tail of evaluateGarbledGate once both inputs are known: XOR the two
      labels for a XOR gate, decrypt the row their permute bits select for a
      gate with one or two inputs, and the zero label for more inputs. */
  method CombineLabels(t: GateType, n: nat, table: seq<Label>, h: Hash, label1: Label, label2: Option<Label>)
    returns (success: bool, result: Label)
    requires t != Xor && n == 2 ==> |table| == 4
    requires t != Xor && n == 1 ==> |table| == 2
    requires n == 2 <==> label2.Some?
    ensures var r := Combine(t, n, table, h, Some(label1), label2);
      (success <==> r.Some?) && (success ==> result == r.value)
  {
    result := ZeroLabel();
    success := false;
    if t == Xor {
      if label2.Some? {
        result := XorLabel(label1, label2.value);
        success := true;
      }
    } else if n == 2 {
      var row := 2 * LsbBit(label1) + LsbBit(label2.value);
      result := DecryptTableEntry(h, row, label1, label2, table[row]);
      success := true;
    } else if n == 1 {
      var row := LsbBit(label1);
      result := DecryptTableEntry(h, row, label1, None, table[row]);
      success := true;
    } else {
      success := true;
    }
  }

  /** EvaluateCircuit (receiver garb): fails when the number of input labels is
      not NumInputWires or there is no output; otherwise evaluates every output
      gate in turn, clearing visited before each one and sharing the cache, and
      fails as soon as one output fails. On a valid circuit it succeeds exactly
      when every output has a GarbledValue, and returns those values. */
  method EvaluateCircuit(garb: GarbledCircuit, c: Circuit, inputLabels: seq<Label>, h: Hash)
    returns (ok: bool, result: seq<Label>)
    ensures |inputLabels| != c.numInputWires || c.numOutputWires < 1 ==> !ok
    ensures ok ==> |result| == c.numOutputWires
    ensures c.ValidCircuit() ==>
      (ok <==> |inputLabels| == c.numInputWires && c.numOutputWires >= 1 &&
               forall i :: 0 <= i < c.numOutputWires ==>
                 GarbledValue(c, garb.garbledGates, inputLabels, h, c.GetOutputGate(i)).Some?)
    ensures c.ValidCircuit() && ok ==>
      forall i :: 0 <= i < c.numOutputWires ==>
        result[i] == GarbledValue(c, garb.garbledGates, inputLabels, h, c.GetOutputGate(i)).value
  {
    result := [];
    if |inputLabels| != c.numInputWires || c.numOutputWires < 1 {
      return false, [];
    }
    var n := |c.gates|;
    var visited := new bool[n](_ => false);
    var calculated := new bool[n](_ => false);
    var labels := new Label[n](_ => ZeroLabel());
    var i := 0;
    while i < c.numOutputWires
      invariant 0 <= i <= c.numOutputWires && |result| == i
      invariant CacheOk(c, garb.garbledGates, inputLabels, h, calculated[..], labels[..])
      invariant c.ValidCircuit() ==> forall k :: 0 <= k < i ==>
        GarbledValue(c, garb.garbledGates, inputLabels, h, c.GetOutputGate(k)) == Some(result[k])
    {
      var success, resultLabel := EvaluateOutput(garb, c, c.GetOutputGate(i), visited, calculated, labels, inputLabels, h);
      result := result + [resultLabel];
      if !success {
        return false, [];
      }
      i := i + 1;
    }
    ok := true;
  }

  /** One round of EvaluateCircuit's loop: clear visited, then evaluate output
      gate g with the shared cache. */
  method EvaluateOutput(garb: GarbledCircuit, c: Circuit, g: int, visited: array<bool>, calculated: array<bool>,
                        labels: array<Label>, inputLabels: seq<Label>, h: Hash)
    returns (success: bool, result: Label)
    requires visited.Length == calculated.Length == labels.Length == |c.gates|
    requires visited != calculated
    requires CacheOk(c, garb.garbledGates, inputLabels, h, calculated[..], labels[..])
    modifies visited, calculated, labels
    ensures CacheOk(c, garb.garbledGates, inputLabels, h, calculated[..], labels[..])
    ensures c.ValidCircuit() && 0 <= g < |c.gates| ==>
      (success <==> GarbledValue(c, garb.garbledGates, inputLabels, h, g).Some?) &&
      (success ==> result == GarbledValue(c, garb.garbledGates, inputLabels, h, g).value)
  {
    ClearVisited(visited);
    assert StackOk(c, garb.garbledGates, inputLabels, h, visited[..], calculated[..], c.Rank(g));
    success, result := EvaluateGarbledGate(garb, c, g, visited, calculated, labels, inputLabels, h);
  }

  /** The loop of EvaluateCircuit that resets visited before each output. */
  method ClearVisited(visited: array<bool>)
    modifies visited
    ensures forall k :: 0 <= k < visited.Length ==> !visited[k]
  {
    for j := 0 to visited.Length
      invariant forall k :: 0 <= k < j ==> !visited[k]
    {
      visited[j] := false;
    }
  }

  // ---------------------------------------------------------------------------
  // Input and output conversion

  /** GetInputLabelsFromBools (receiver garb): None (Go's nil) when the number
      of bits is not NumInputWires, and None where Go would index past the label
      list; otherwise label inputs[i] of input wire i. */
  method GetInputLabelsFromBools(garb: GarbledCircuit, inputs: seq<bool>) returns (r: Option<seq<Label>>)
    ensures |inputs| != garb.numInputWires || |inputs| > |garb.wireLabels| ==> r == None
    ensures |inputs| == garb.numInputWires <= |garb.wireLabels| ==>
      r.Some? && |r.value| == |inputs| &&
      forall i :: 0 <= i < |inputs| ==> r.value[i] == garb.wireLabels[i].Get(inputs[i])
  {
    if |inputs| != garb.numInputWires || |inputs| > |garb.wireLabels| {
      return None;
    }
    var inputLabels: seq<Label> := [];
    for i := 0 to |inputs|
      invariant |inputLabels| == i
      invariant forall k :: 0 <= k < i ==> inputLabels[k] == garb.wireLabels[k].Get(inputs[k])
    {
      var inputIndex := if inputs[i] then 1 else 0;
      var picked := if inputIndex == 0 then garb.wireLabels[i].zero else garb.wireLabels[i].one;
      inputLabels := inputLabels + [picked];
    }
    return Some(inputLabels);
  }

  /** The labels GetInputLabelsFromBools picks are an encoding of the input bits
      that GarbledValueCorrect accepts. */
  lemma InputLabelsEncode(c: Circuit, w: seq<WireLabelSet>, x: seq<bool>, inLabels: seq<Label>)
    requires |w| == |c.gates| && 0 <= c.numInputWires == |x| == |inLabels| <= |w|
    requires forall i :: 0 <= i < |x| ==> inLabels[i] == w[i].Get(x[i])
    ensures EncodesInput(c, w, x, inLabels)
  {
  }

  /** The character strconv.Itoa gives a bit. */
  function BitChar(b: bool): char
  {
    if b then '1' else '0'
  }

  /** DecodePlaintextOutputLabels: the permute bits of the labels as a string of
      '0' and '1', each new label's bit prepended, so label i is character i
      from the right. */
  function DecodePlaintextOutputLabels(outLabels: seq<Label>): (out: string)
    ensures |out| == |outLabels|
    ensures forall i :: 0 <= i < |outLabels| ==> out[|out| - 1 - i] == BitChar(Lsb(outLabels[i]))
  {
    if outLabels == [] then ""
    else [BitChar(Lsb(outLabels[|outLabels| - 1]))] + DecodePlaintextOutputLabels(outLabels[..|outLabels| - 1])
  }

  /** Every result label is one of the two labels of its mapping. */
  predicate Decodable(resultLabels: seq<Label>, mappings: seq<WireLabelSet>)
  {
    && |resultLabels| <= |mappings|
    && forall i :: 0 <= i < |resultLabels| ==> resultLabels[i] == mappings[i].zero || resultLabels[i] == mappings[i].one
  }

  /** decodeResultLabels: each result label must equal label 0 (false) or else
      label 1 (true) of its mapping; a label matching neither fails the whole
      decoding, and so does running past the mappings (a Go index panic). */
  function DecodeResultLabels(resultLabels: seq<Label>, mappings: seq<WireLabelSet>): (r: Option<seq<bool>>)
    ensures r.Some? <==> Decodable(resultLabels, mappings)
    ensures r.Some? ==> |r.value| == |resultLabels| <= |mappings|
    ensures r.Some? ==>
      forall i :: 0 <= i < |resultLabels| ==> r.value[i] == (resultLabels[i] != mappings[i].zero)
  {
    if resultLabels == [] then Some([])
    else
      var n := |resultLabels| - 1;
      var prefix := DecodeResultLabels(resultLabels[..n], mappings);
      assert forall i :: 0 <= i < n ==> resultLabels[..n][i] == resultLabels[i];
      if prefix.None? || n >= |mappings| then None
      else if resultLabels[n] == mappings[n].zero then Some(prefix.value + [false])
      else if resultLabels[n] == mappings[n].one then Some(prefix.value + [true])
      else None
  }

  /** Encoding bits with pairs whose two labels differ and decoding them gives
      the bits back. */
  lemma {:induction false} DecodeResultRoundTrip(bits: seq<bool>, mappings: seq<WireLabelSet>, labels: seq<Label>)
    requires |bits| == |labels| <= |mappings|
    requires forall i :: 0 <= i < |bits| ==> mappings[i].zero != mappings[i].one
    requires forall i :: 0 <= i < |bits| ==> labels[i] == mappings[i].Get(bits[i])
    ensures DecodeResultLabels(labels, mappings) == Some(bits)
  {
    if bits != [] {
      var n := |bits| - 1;
      DecodeResultRoundTrip(bits[..n], mappings, labels[..n]);
      assert bits == bits[..n] + [bits[n]];
    }
  }

  /** GenerateWireLabels: label 0 takes 15 random bytes and label 1 is their XOR
      with delta; a structured pair then ends in 0 and 1, any other pair in one
      further random byte each. Read never fails on the generator, so the
      result is always true. */
  method GenerateWireLabels(freeXorDelta: Label, rng: Rng, isStructured: bool) returns (ok: bool, labelSet: WireLabelSet)
    modifies rng
    ensures ok
    ensures labelSet.zero[..15] == rng.StreamBytes(old(rng.pos), 15)
    ensures forall i :: 0 <= i < 15 ==> labelSet.one[i] == labelSet.zero[i] ^ freeXorDelta[i]
    ensures isStructured ==> rng.pos == old(rng.pos) + 15 && labelSet.zero[15] == 0 && labelSet.one[15] == 1
    ensures !isStructured ==> rng.pos == old(rng.pos) + 17
    ensures !isStructured ==> labelSet.zero[15] == rng.stream(old(rng.pos) + 15)
    ensures !isStructured ==> labelSet.one[15] == rng.stream(old(rng.pos) + 16)
  {
    var label0 := rng.Read(15);
    var label1: seq<byte> := [];
    for i := 0 to 15
      invariant |label1| == i
      invariant forall k :: 0 <= k < i ==> label1[k] == label0[k] ^ freeXorDelta[k]
    {
      label1 := label1 + [label0[i] ^ freeXorDelta[i]];
    }
    if isStructured {
      labelSet := WireLabelSet(label0 + [0], label1 + [1]);
    } else {
      var rand0 := rng.Read(1);
      var rand1 := rng.Read(1);
      labelSet := WireLabelSet(label0 + rand0, label1 + rand1);
    }
    ok := true;
  }

  /** A structured pair carries its bit in the permute bit. */
  lemma StructuredPairDecodes(labelSet: WireLabelSet, b: bool)
    requires labelSet.zero[15] == 0 && labelSet.one[15] == 1
    ensures Lsb(labelSet.Get(b)) == b
  {
  }

  // ---------------------------------------------------------------------------
  // End to end

  /** On a well-garbled circuit with exact arities, evaluating an honest input
      encoding yields at output i the structured label of the plaintext output
      bit, whose permute bit is that output bit. */
  lemma OutputsDecode(c: Circuit, w: seq<WireLabelSet>, tables: seq<seq<Label>>, delta: Label, h: Hash,
                      x: seq<bool>, inLabels: seq<Label>, i: int)
    requires WellGarbled(c, w, tables, delta, h) && ExactArities(c) && AllGarbleable(c)
    requires EncodesInput(c, w, x, inLabels)
    requires 0 <= i < c.numOutputWires
    ensures 0 <= c.GetOutputGate(i) < |c.gates|
    ensures GarbledValue(c, tables, inLabels, h, c.GetOutputGate(i)) ==
      Some(if PlainValue(c, x, c.GetOutputGate(i)) then OneLabel() else ZeroLabel())
    ensures Lsb(GarbledValue(c, tables, inLabels, h, c.GetOutputGate(i)).value) == PlainValue(c, x, c.GetOutputGate(i))
  {
    var g := c.GetOutputGate(i);
    assert c.IsOutputIndex(g);
    GarbledValueCorrect(c, w, tables, delta, h, x, inLabels, g);
    assert WireOk(c, w, delta, g);
    assert ZeroLabel()[15] == 0 && OneLabel()[15] == 1;
  }

  /** Garbling, encoding the input, evaluating and decoding the output string
      computes the circuit: character i from the right is output bit i. */
  lemma EvaluationDecodes(c: Circuit, w: seq<WireLabelSet>, tables: seq<seq<Label>>, delta: Label, h: Hash,
                          x: seq<bool>, inLabels: seq<Label>, result: seq<Label>)
    requires WellGarbled(c, w, tables, delta, h) && ExactArities(c) && AllGarbleable(c)
    requires EncodesInput(c, w, x, inLabels)
    requires |result| == c.numOutputWires
    requires forall i :: 0 <= i < c.numOutputWires ==>
      GarbledValue(c, tables, inLabels, h, c.GetOutputGate(i)) == Some(result[i])
    ensures forall i :: 0 <= i < |result| ==>
      DecodePlaintextOutputLabels(result)[|result| - 1 - i] == BitChar(PlainValue(c, x, c.GetOutputGate(i)))
  {
    var bits := seq(|result|, i requires 0 <= i < |result| => PlainValue(c, x, c.GetOutputGate(i)));
    forall i | 0 <= i < |result|
      ensures Lsb(result[i]) == bits[i]
    {
      OutputsDecode(c, w, tables, delta, h, x, inLabels, i);
    }
    DecodeBits(result, bits);
  }

  /** Labels whose permute bits are bits decode to bits, last one first. */
  lemma DecodeBits(result: seq<Label>, bits: seq<bool>)
    requires |bits| == |result|
    requires forall i :: 0 <= i < |result| ==> Lsb(result[i]) == bits[i]
    ensures forall i :: 0 <= i < |result| ==>
      DecodePlaintextOutputLabels(result)[|result| - 1 - i] == BitChar(bits[i])
  {
  }
}
