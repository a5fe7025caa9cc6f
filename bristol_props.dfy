/** What a successful Bristol parse guarantees about the circuit it builds. */
module BristolProps {

  import opened Common
  import opened Circuits
  import opened Bristol

  /** The gate type an opcode produces. */
  function OpcodeType(op: string): GateType
    requires KnownOpcode(op)
  {
    if op == "AND" then And
    else if op == "XOR" then Xor
    else if op == "OR" then Or
    else if op == "INV" then Not
    else if op == "EQ" then Const
    else Copy
  }

  /** The field holding the output wire: field 3 for the one-input INV and EQW,
      field 4 otherwise (for EQ this is the opcode field of a four-field line). */
  function OutField(op: string): nat
  {
    if op == "INV" || op == "EQW" then 3 else 4
  }

  /** A gate line succeeds only with a known opcode; it then yields a gate of the
      opcode's type with exactly as many inputs as that type takes, never -1 as a
      reference of a wired gate, and the output wire from OutField; the inputs
      are the wire-to-gate images of fields 2 and 3 (one-input gates: field 2),
      while EQ keeps the literal of field 2. */
  lemma GateLineShape(rec: seq<string>, wires: seq<int>, numIn: int, numOut: int)
    ensures var r := GateLine(rec, wires, numIn, numOut);
      && (|rec| == 0 || !KnownOpcode(rec[|rec| - 1]) ==> r.None?)
      && (r.Some? ==>
            var op := rec[|rec| - 1];
            var g := r.value.0;
            && KnownOpcode(op)
            && g.gateType == OpcodeType(op)
            && |g.inFrom| == Arity(g.gateType)
            && OutField(op) < |rec| && r.value.1 == Atoi(rec[OutField(op)])
            && (op == "EQ" ==> g.inFrom == [Atoi(rec[2])])
            && (op != "EQ" ==> forall k :: 0 <= k < |g.inFrom| ==>
                   Some(g.inFrom[k]) == WireToGate(wires, Atoi(rec[2 + k]), numIn, numOut, numIn) && g.inFrom[k] != -1))
  {
  }

  /** The output-range branch of wireToGate is dead when the caller passes the
      input wire count as the total: a wire is its own gate below numIn, and is
      otherwise looked up in the wire map, 0 meaning "never driven". */
  lemma WireToGateAsCalled(wires: seq<int>, wireNum: int, numIn: int, numOut: int)
    ensures var r := WireToGate(wires, wireNum, numIn, numOut, numIn);
      && (wireNum < numIn ==> r == Some(wireNum))
      && (wireNum >= numIn ==>
            && (r.Some? <==> 0 <= wireNum < |wires|)
            && (r.Some? ==> r.value == if wires[wireNum] != 0 then wires[wireNum] else -1))
  {
  }

  // ---------------------------------------------------------------------------
  // The gate-line loop

  /** A gate stored at index g by the loop: a real gate type, the right number of
      inputs, and (except for CONST, whose input is a literal) every reference an
      input wire or an earlier real gate. */
  predicate ParsedGate(gate: Gate, g: int, base: int, numIn: int)
  {
    && gate.gateType != Input
    && gate.gateType != Output
    && |gate.inFrom| == Arity(gate.gateType)
    && (gate.gateType != Const ==>
          forall k :: 0 <= k < |gate.inFrom| ==> gate.inFrom[k] < numIn || base <= gate.inFrom[k] < g)
  }

  /** After n gate lines: those lines' gates sit at base .. base+n-1 and the wire
      map holds 0 or one of their indices. */
  predicate Filled(st: State, base: int, n: nat, numIn: int)
  {
    && 0 <= base
    && base + n <= |st.gates|
    && (forall g :: base <= g < base + n ==> ParsedGate(st.gates[g], g, base, numIn))
    && (forall w :: 0 <= w < |st.wires| ==> st.wires[w] == 0 || base <= st.wires[w] < base + n)
  }

  lemma StepFills(st: State, rec: seq<string>, base: int, n: nat, numIn: int, numOut: int)
    requires Filled(st, base, n, numIn)
    requires Step(st, rec, base + n, numIn, numOut).Some?
    ensures var st' := Step(st, rec, base + n, numIn, numOut).value;
      && Filled(st', base, n + 1, numIn)
      && |st'.gates| == |st.gates| && |st'.wires| == |st.wires|
      && (forall g :: 0 <= g < |st.gates| && g != base + n ==> st'.gates[g] == st.gates[g])
      && st'.gates[base + n] == GateLine(rec, st.wires, numIn, numOut).value.0
  {
    GateLineShape(rec, st.wires, numIn, numOut);
    var (gate, out) := GateLine(rec, st.wires, numIn, numOut).value;
    if gate.gateType != Const {
      forall k | 0 <= k < |gate.inFrom|
        ensures gate.inFrom[k] < numIn || base <= gate.inFrom[k] < base + n
      {
        WireToGateAsCalled(st.wires, Atoi(rec[2 + k]), numIn, numOut);
      }
    }
  }

  /** The loop over gate lines keeps the gates of lines 0 .. k-1 at base .. base+k-1,
      leaves every other slot alone, and stores line k's gate, decoded against the
      wire map as it stood after line k-1, at base + k. */
  lemma {:induction false} RunGatesFills(init: State, lines: seq<seq<string>>, base: int, numIn: int, numOut: int)
    requires Filled(init, base, 0, numIn)
    requires RunGates(init, lines, base, numIn, numOut).Some?
    ensures var st := RunGates(init, lines, base, numIn, numOut).value;
      && Filled(st, base, |lines|, numIn)
      && |st.gates| == |init.gates| && |st.wires| == |init.wires|
      && (forall g :: 0 <= g < |init.gates| && !(base <= g < base + |lines|) ==> st.gates[g] == init.gates[g])
  {
    if lines != [] {
      var front := lines[..|lines| - 1];
      RunGatesFills(init, front, base, numIn, numOut);
      StepFills(RunGates(init, front, base, numIn, numOut).value, lines[|lines| - 1], base, |front|, numIn, numOut);
    }
  }

  lemma {:induction false} RunGatesPlacement(init: State, lines: seq<seq<string>>, base: int, numIn: int, numOut: int, k: nat)
    requires Filled(init, base, 0, numIn)
    requires RunGates(init, lines, base, numIn, numOut).Some?
    requires k < |lines|
    ensures RunGates(init, lines[..k], base, numIn, numOut).Some?
    ensures var before := RunGates(init, lines[..k], base, numIn, numOut).value;
      && GateLine(lines[k], before.wires, numIn, numOut).Some?
      && RunGates(init, lines, base, numIn, numOut).value.gates[base + k] == GateLine(lines[k], before.wires, numIn, numOut).value.0
  {
    var front := lines[..|lines| - 1];
    RunGatesFills(init, front, base, numIn, numOut);
    var st := RunGates(init, front, base, numIn, numOut).value;
    StepFills(st, lines[|lines| - 1], base, |front|, numIn, numOut);
    if k < |front| {
      RunGatesPlacement(init, front, base, numIn, numOut, k);
      assert front[..k] == lines[..k];
      assert front[k] == lines[k];
    } else {
      assert lines[..k] == front;
    }
  }

  /** A line with no fields or an unknown opcode fails the whole loop. */
  lemma {:induction false} UnknownOpcodeFails(init: State, lines: seq<seq<string>>, base: int, numIn: int, numOut: int, k: nat)
    requires k < |lines|
    requires |lines[k]| == 0 || !KnownOpcode(lines[k][|lines[k]| - 1])
    ensures RunGates(init, lines, base, numIn, numOut).None?
  {
    var front := lines[..|lines| - 1];
    if k < |front| {
      assert front[k] == lines[k];
      UnknownOpcodeFails(init, front, base, numIn, numOut, k);
    } else {
      match RunGates(init, front, base, numIn, numOut)
      case None =>
      case Some(st) =>
        GateLineShape(lines[k], st.wires, numIn, numOut);
    }
  }

  // ---------------------------------------------------------------------------
  // The output loop

  /** Gate slot g after k output connections turned c into r: an OUTPUT gate
      among the first k reads from the in-range gate recorded for its wire, and
      any other slot is as in c. */
  predicate OutputSlot(c: Circuit, r: Circuit, wires: seq<int>, numWires: int, k: nat, g: int)
    requires 0 <= g < |c.gates| <= |r.gates|
  {
    if c.numInputWires <= g < c.numInputWires + k then
      var w := g - c.numInputWires + numWires - c.numOutputWires;
      && 0 <= w < |wires| && 0 <= wires[w] < |c.gates|
      && r.gates[g] == Gate(Output, [wires[w]], false)
    else r.gates[g] == c.gates[g]
  }

  /** After k output connections, OUTPUT gate i < k reads from the gate recorded
      for wire numWires - numOut + i, which is in range; nothing else changes. */
  lemma {:induction false} ConnectOutputsEffect(c: Circuit, wires: seq<int>, numWires: int, k: nat)
    requires ConnectOutputs(c, wires, numWires, k).Some?
    ensures var r := ConnectOutputs(c, wires, numWires, k).value;
      && r == c.(gates := r.gates)
      && |r.gates| == |c.gates|
      && (k > 0 ==> k <= c.numOutputWires && 0 <= c.numInputWires && c.numInputWires + k <= |c.gates|)
      && (forall g :: 0 <= g < |c.gates| ==> OutputSlot(c, r, wires, numWires, k, g))
  {
    if k > 0 {
      ConnectOutputsEffect(c, wires, numWires, k - 1);
      var prev := ConnectOutputs(c, wires, numWires, k - 1).value;
      var w := k - 1 + (numWires - c.numOutputWires);
      var r := ConnectOutputs(c, wires, numWires, k).value;
      assert 0 <= w < |wires| && r == ConnectOutputWire(prev, wires[w], k - 1).value;
      assert r.gates == prev.gates[c.numInputWires + k - 1 := Gate(Output, [wires[w]], false)];
      forall g | 0 <= g < |c.gates|
        ensures OutputSlot(c, r, wires, numWires, k, g)
      {
        assert OutputSlot(c, prev, wires, numWires, k - 1, g);
        if g != c.numInputWires + k - 1 {
          assert r.gates[g] == prev.gates[g];
        }
      }
    }
  }

  /** A failed connection fails the parse: ConnectOutputs is None as soon as one
      output's wire or gate is out of range. */
  lemma ConnectOutputsFails(c: Circuit, wires: seq<int>, numWires: int, k: nat, i: nat)
    requires i < k <= c.numOutputWires
    requires c.numInputWires + c.numOutputWires <= |c.gates| && 0 <= c.numInputWires
    requires var w := i + numWires - c.numOutputWires; !(0 <= w < |wires| && 0 <= wires[w] < |c.gates|)
    ensures ConnectOutputs(c, wires, numWires, k).None?
  {
    if ConnectOutputs(c, wires, numWires, k).Some? {
      ConnectOutputsEffect(c, wires, numWires, k);
    }
  }

  // ---------------------------------------------------------------------------
  // The whole parse

  /** The intermediate results of a successful parse. */
  lemma ParseSteps(records: seq<seq<string>>) returns (h: Header, c0: Circuit, st: State)
    requires ParseBristol(records).Some?
    ensures ParseHeader(records) == Some(h)
    ensures InitializeCircuit(Sum(h.inWidths), Sum(h.outWidths), |h.inWidths|, |h.outWidths|, h.inWidths, h.outWidths) == Some(c0)
    ensures 0 <= h.numGates && 0 <= h.numWires && 3 + h.numGates <= |records|
    ensures RunGates(InitialState(c0, h), records[3..3 + h.numGates], Sum(h.inWidths) + Sum(h.outWidths), Sum(h.inWidths), Sum(h.outWidths)) == Some(st)
    ensures ParseBristol(records) == ConnectOutputs(c0.(gates := st.gates), st.wires, h.numWires, Sum(h.outWidths))
  {
    h := ParseHeader(records).value;
    assert ParseBristol(records) == ParseBody(records, h);
    c0 := InitializeCircuit(Sum(h.inWidths), Sum(h.outWidths), |h.inWidths|, |h.outWidths|, h.inWidths, h.outWidths).value;
    st := RunGates(InitialState(c0, h), records[3..3 + h.numGates], Sum(h.inWidths) + Sum(h.outWidths), Sum(h.inWidths), Sum(h.outWidths)).value;
  }

  /** The state after the gate-line loop of a successful parse. */
  lemma ParseFills(records: seq<seq<string>>) returns (h: Header, c0: Circuit, st: State)
    requires ParseBristol(records).Some?
    ensures ParseHeader(records) == Some(h)
    ensures var totalIn, totalOut := Sum(h.inWidths), Sum(h.outWidths);
      && InitializeCircuit(totalIn, totalOut, |h.inWidths|, |h.outWidths|, h.inWidths, h.outWidths) == Some(c0)
      && Filled(st, totalIn + totalOut, h.numGates, totalIn)
      && |st.gates| == totalIn + totalOut + h.numGates
      && (forall g :: 0 <= g < totalIn + totalOut ==> st.gates[g] == c0.gates[g])
      && ParseBristol(records) == ConnectOutputs(c0.(gates := st.gates), st.wires, h.numWires, totalOut)
  {
    h, c0, st := ParseSteps(records);
    FillsOfRun(records, h, c0, st);
  }

  /** The gate-line loop run from the initial state fills every line's slot and
      keeps the pseudo-gates. */
  lemma FillsOfRun(records: seq<seq<string>>, h: Header, c0: Circuit, st: State)
    requires InitializeCircuit(Sum(h.inWidths), Sum(h.outWidths), |h.inWidths|, |h.outWidths|, h.inWidths, h.outWidths) == Some(c0)
    requires 0 <= h.numGates && 0 <= h.numWires && 3 + h.numGates <= |records|
    requires RunGates(InitialState(c0, h), records[3..3 + h.numGates], Sum(h.inWidths) + Sum(h.outWidths), Sum(h.inWidths), Sum(h.outWidths)) == Some(st)
    ensures var totalIn, totalOut := Sum(h.inWidths), Sum(h.outWidths);
      && Filled(st, totalIn + totalOut, h.numGates, totalIn)
      && |st.gates| == totalIn + totalOut + h.numGates
      && (forall g :: 0 <= g < totalIn + totalOut ==> st.gates[g] == c0.gates[g])
  {
    var totalIn, totalOut := Sum(h.inWidths), Sum(h.outWidths);
    InitialFilled(c0, h);
    RunGatesFills(InitialState(c0, h), records[3..3 + h.numGates], totalIn + totalOut, totalIn, totalOut);
  }

  /** Before the gate lines nothing is filled, the slots past the pseudo-gates
      are blank, and the pseudo-gates are those of initializeCircuit. */
  lemma InitialFilled(c0: Circuit, h: Header)
    requires h.numGates >= 0 && h.numWires >= 0
    requires InitializeCircuit(Sum(h.inWidths), Sum(h.outWidths), |h.inWidths|, |h.outWidths|, h.inWidths, h.outWidths) == Some(c0)
    ensures var init, base := InitialState(c0, h), Sum(h.inWidths) + Sum(h.outWidths);
      && Filled(init, base, 0, Sum(h.inWidths))
      && |init.gates| == base + h.numGates
      && forall g :: 0 <= g < base ==> init.gates[g] == c0.gates[g]
  {
  }

  /** The circuit of a successful parse in terms of the state after the
      gate-line loop and the output connections. */
  lemma ParseResult(records: seq<seq<string>>) returns (h: Header, c0: Circuit, st: State)
    requires ParseBristol(records).Some?
    ensures ParseHeader(records) == Some(h)
    ensures var totalIn, totalOut := Sum(h.inWidths), Sum(h.outWidths);
      var c := ParseBristol(records).value;
      && InitializeCircuit(totalIn, totalOut, |h.inWidths|, |h.outWidths|, h.inWidths, h.outWidths) == Some(c0)
      && Filled(st, totalIn + totalOut, h.numGates, totalIn)
      && |st.gates| == |c.gates| == totalIn + totalOut + h.numGates
      && (forall g :: 0 <= g < totalIn + totalOut ==> st.gates[g] == c0.gates[g])
      && c == c0.(gates := c.gates)
      && (forall g :: 0 <= g < |c.gates| ==> OutputSlot(c0.(gates := st.gates), c, st.wires, h.numWires, totalOut, g))
  {
    h, c0, st := ParseFills(records);
    ConnectOutputsEffect(c0.(gates := st.gates), st.wires, h.numWires, Sum(h.outWidths));
  }

  /** What ParseBRISTOLCircuitFile leaves in circ when it returns true: the wire
      totals are the sums of the header widths, there is one gate slot per
      pseudo-gate and gate line, and the layout and the arities hold. */
  lemma ParseBristolShape(records: seq<seq<string>>)
    requires ParseBristol(records).Some?
    ensures ParseHeader(records).Some?
    ensures var h := ParseHeader(records).value;
      var c := ParseBristol(records).value;
      var totalIn, totalOut := Sum(h.inWidths), Sum(h.outWidths);
      && c.numInputWires == totalIn && c.numOutputWires == totalOut
      && c.numInputVars == |h.inWidths| && c.numOutputVars == |h.outWidths|
      && c.inputWidths == h.inWidths && c.outputWidths == h.outWidths
      && |c.gates| == totalIn + totalOut + h.numGates
      && c.Layout()
      && ExactArities(c)
  {
    var h, c0, st := ParseResult(records);
    var totalIn, totalOut := Sum(h.inWidths), Sum(h.outWidths);
    var base := totalIn + totalOut;
    var c := ParseBristol(records).value;
    forall g | 0 <= g < |c.gates|
      ensures c.gates[g].gateType == Input <==> g < totalIn
      ensures c.gates[g].gateType == Output <==> c.IsOutputIndex(g)
      ensures c.gates[g].gateType != Input ==> |c.gates[g].inFrom| == Arity(c.gates[g].gateType)
    {
      assert OutputSlot(c0.(gates := st.gates), c, st.wires, h.numWires, totalOut, g);
      if g >= base {
        assert ParsedGate(st.gates[g], g, base, totalIn);
      } else if g < totalIn {
        assert c.gates[g] == c0.gates[g];
      }
    }
  }

  /** The references of a parsed circuit: output i reads from gate 0 or from a
      real gate, and every real gate other than CONST reads only from input
      wires or earlier real gates. */
  lemma ParseBristolOrder(records: seq<seq<string>>)
    requires ParseBristol(records).Some?
    ensures var c := ParseBristol(records).value;
      var base := c.numInputWires + c.numOutputWires;
      && 0 <= c.numInputWires && base <= |c.gates|
      && (forall g :: c.numInputWires <= g < base ==>
            |c.gates[g].inFrom| == 1 && 0 <= c.gates[g].inFrom[0] < |c.gates| &&
            (c.gates[g].inFrom[0] == 0 || base <= c.gates[g].inFrom[0]))
      && (forall g :: base <= g < |c.gates| ==> ParsedGate(c.gates[g], g, base, c.numInputWires))
  {
    var h, c0, st := ParseResult(records);
    var totalIn, totalOut := Sum(h.inWidths), Sum(h.outWidths);
    var base := totalIn + totalOut;
    var c := ParseBristol(records).value;
    forall g | totalIn <= g < base
      ensures |c.gates[g].inFrom| == 1 && 0 <= c.gates[g].inFrom[0] < |c.gates|
      ensures c.gates[g].inFrom[0] == 0 || base <= c.gates[g].inFrom[0]
    {
      assert OutputSlot(c0.(gates := st.gates), c, st.wires, h.numWires, totalOut, g);
    }
    forall g | base <= g < |c.gates|
      ensures ParsedGate(c.gates[g], g, base, totalIn)
    {
      assert OutputSlot(c0.(gates := st.gates), c, st.wires, h.numWires, totalOut, g);
    }
  }

  /** A parsed circuit with at least one input wire, without CONST gates and
      without negative wire numbers is a valid circuit: references only go down
      in rank, so it can be garbled and evaluated gate by gate. */
  lemma ParsedCircuitValid(records: seq<seq<string>>)
    requires ParseBristol(records).Some?
    requires var c := ParseBristol(records).value;
      && c.numInputWires > 0
      && (forall g :: 0 <= g < |c.gates| ==> c.gates[g].gateType != Const)
      && (forall g, k :: 0 <= g < |c.gates| && 0 <= k < |c.gates[g].inFrom| ==> c.gates[g].inFrom[k] >= 0)
    ensures ParseBristol(records).value.ValidCircuit()
  {
    ParseBristolShape(records);
    ParseBristolOrder(records);
    var c := ParseBristol(records).value;
    var base := c.numInputWires + c.numOutputWires;
    forall g | c.numInputWires <= g < |c.gates|
      ensures c.RefsBelow(g)
    {
      if g >= base {
        assert ParsedGate(c.gates[g], g, base, c.numInputWires);
      } else {
        assert c.gates[g].inFrom[0] == 0 || base <= c.gates[g].inFrom[0];
      }
    }
  }

  /** An unknown opcode on any gate line makes the whole parse fail. */
  lemma ParseRejectsUnknownOpcode(records: seq<seq<string>>, k: nat)
    requires ParseHeader(records).Some?
    requires var h := ParseHeader(records).value; k < h.numGates && 3 + h.numGates <= |records|
    requires |records[3 + k]| == 0 || !KnownOpcode(records[3 + k][|records[3 + k]| - 1])
    ensures ParseBristol(records).None?
  {
    var h := ParseHeader(records).value;
    var totalIn, totalOut := Sum(h.inWidths), Sum(h.outWidths);
    var lines := records[3..3 + h.numGates];
    assert lines[k] == records[3 + k];
    assert ParseBristol(records) == ParseBody(records, h);
    match InitializeCircuit(totalIn, totalOut, |h.inWidths|, |h.outWidths|, h.inWidths, h.outWidths)
    case None =>
    case Some(c0) =>
      if h.numWires >= 0 {
        UnknownOpcodeFails(InitialState(c0, h), lines, totalIn + totalOut, totalIn, totalOut, k);
      }
  }
}
