/** The circuit representation consumed by the Bristol parser, the garbler and the
    evaluator. Gates 0 .. NumInputWires-1 are synthetic INPUT gates, the next
    NumOutputWires gates are synthetic OUTPUT gates, and the real gates follow. */
module Circuits {

  import opened Common

  datatype GateType = Input | Output | And | Or | Xor | Not | Const | Copy

  /** One gate: its type, the gates it reads from, and the value of a constant gate. */
  datatype Gate = Gate(gateType: GateType, inFrom: seq<int>, constVal: bool)

  datatype Circuit = Circuit(
    numInputWires: int,
    numOutputWires: int,
    numInputVars: int,
    numOutputVars: int,
    inputWidths: seq<int>,
    outputWidths: seq<int>,
    gates: seq<Gate>)
  {
    /** getOutputGate: the gate index of output wire i, which for a valid
        output index lies in the OUTPUT gate range. */
    function GetOutputGate(i: int): (g: int)
      ensures g - numInputWires == i
      ensures 0 <= i < numOutputWires ==> IsOutputIndex(g)
      ensures Layout() && 0 <= i < numOutputWires ==> 0 <= g < |gates| && gates[g].gateType == Output
    {
      numInputWires + i
    }

    predicate IsOutputIndex(g: int)
    {
      numInputWires <= g < numInputWires + numOutputWires
    }

    /** The order in which gates may depend on each other: a real or input gate
        ranks by its index, an OUTPUT gate after every other gate. */
    function Rank(g: int): int
    {
      if IsOutputIndex(g) then |gates| else g
    }

    /** Every reference of gate g names a gate of strictly smaller rank. */
    predicate RefsBelow(g: int)
      requires 0 <= g < |gates|
    {
      forall k :: 0 <= k < |gates[g].inFrom| ==>
        0 <= gates[g].inFrom[k] < |gates| && Rank(gates[g].inFrom[k]) < Rank(g)
    }

    /** The shape every circuit built by InitializeCircuit keeps. */
    predicate Layout()
    {
      && 0 <= numInputWires
      && 0 <= numOutputWires
      && numInputWires + numOutputWires <= |gates|
      && (forall g :: 0 <= g < |gates| ==> (gates[g].gateType == Input <==> g < numInputWires))
      && (forall g :: 0 <= g < |gates| ==> (gates[g].gateType == Output <==> IsOutputIndex(g)))
    }

    /** validCircuit: the layout holds and references go strictly down in rank, so
        the gate graph is acyclic. */
    predicate ValidCircuit()
    {
      && Layout()
      && (forall g :: numInputWires <= g < |gates| ==> RefsBelow(g))
    }
  }

  /** The number of inputs each gate type takes. */
  function Arity(t: GateType): nat
  {
    match t
    case Input => 0
    case And | Or | Xor => 2
    case Not | Output | Const | Copy => 1
  }

  /** Every non-input gate has exactly as many references as its type takes. */
  predicate ExactArities(c: Circuit)
  {
    forall g :: 0 <= g < |c.gates| && c.gates[g].gateType != Input ==>
      |c.gates[g].inFrom| == Arity(c.gates[g].gateType)
  }

  /** initializeCircuit: the INPUT and OUTPUT pseudo-gates, with the wire grouping;
      a negative total fails as the allocation would. */
  function InitializeCircuit(totalIn: int, totalOut: int, numInVars: int, numOutVars: int,
                             inWidths: seq<int>, outWidths: seq<int>): (r: Option<Circuit>)
    ensures r.Some? <==> totalIn >= 0 && totalOut >= 0
    ensures r.Some? ==> r.value.Layout() && |r.value.gates| == totalIn + totalOut
    ensures r.Some? ==> r.value.numInputWires == totalIn && r.value.numOutputWires == totalOut
    ensures r.Some? ==> forall g :: 0 <= g < totalIn + totalOut ==> r.value.gates[g].inFrom == []
  {
    if totalIn < 0 || totalOut < 0 then None
    else
      var gates := seq(totalIn + totalOut, g => Gate(if g < totalIn then Input else Output, [], false));
      Some(Circuit(totalIn, totalOut, numInVars, numOutVars, inWidths, outWidths, gates))
  }

  /** connectOutputWire: the OUTPUT gate of wire i reads from gate src; fails when
      an index is out of range. */
  function ConnectOutputWire(c: Circuit, src: int, i: int): (r: Option<Circuit>)
    ensures r.Some? <==> 0 <= i < c.numOutputWires && 0 <= src < |c.gates| && 0 <= c.GetOutputGate(i) < |c.gates|
    ensures c.Layout() && 0 <= i < c.numOutputWires ==> c.GetOutputGate(i) < |c.gates|
    ensures c.Layout() && r.Some? ==> r.value.Layout()
    ensures r.Some? ==>
      0 <= c.GetOutputGate(i) < |c.gates| &&
      r.value == c.(gates := c.gates[c.GetOutputGate(i) := Gate(Output, [src], false)])
  {
    if 0 <= i < c.numOutputWires && 0 <= src < |c.gates| && 0 <= c.GetOutputGate(i) < |c.gates| then
      Some(c.(gates := c.gates[c.GetOutputGate(i) := Gate(Output, [src], false)]))
    else None
  }
}
