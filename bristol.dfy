/** The Bristol-format circuit parser (ParseBRISTOLCircuitFile and wireToGate).
    The input is the list of space-separated records the CSV reader yields, blank
    and '#' lines already dropped. Every Go panic (a missing field or record, an
    index out of range, a negative allocation) is a failed parse, like a false return. */
module Bristol {

  import opened Common
  import opened Circuits

  // ---------------------------------------------------------------------------
  // Number fields

  predicate IsDigit(ch: char) { '0' <= ch <= '9' }

  predicate AllDigits(s: string) { forall i :: 0 <= i < |s| ==> IsDigit(s[i]) }

  function DigitsValue(s: string): nat
    requires AllDigits(s)
  {
    if s == [] then 0 else 10 * DigitsValue(s[..|s| - 1]) + (s[|s| - 1] as int - '0' as int)
  }

  /** strconv.Atoi with its error discarded: an optional sign and at least one
      decimal digit give the value; anything else gives 0. */
  function Atoi(s: string): int
  {
    if |s| > 0 && (s[0] == '-' || s[0] == '+') then
      var d := s[1..];
      if |d| > 0 && AllDigits(d) then (if s[0] == '-' then -(DigitsValue(d) as int) else DigitsValue(d)) else 0
    else if |s| > 0 && AllDigits(s) then DigitsValue(s)
    else 0
  }

  function Sum(s: seq<int>): int
  {
    if s == [] then 0 else Sum(s[..|s| - 1]) + s[|s| - 1]
  }

  // ---------------------------------------------------------------------------
  // Header

  /** The count in field 0 and the widths in fields 1..count of header line 2 or 3. */
  function Widths(rec: seq<string>): Option<seq<int>>
  {
    if |rec| == 0 then None
    else
      var n := Atoi(rec[0]);
      if n < 0 || |rec| < n + 1 then None
      else Some(seq(n, i requires 0 <= i < n => Atoi(rec[i + 1])))
  }

  datatype Header = Header(numGates: int, numWires: int, inWidths: seq<int>, outWidths: seq<int>)

  function ParseHeader(records: seq<seq<string>>): Option<Header>
  {
    if |records| < 3 || |records[0]| < 2 then None
    else match (Widths(records[1]), Widths(records[2]))
      case (Some(ins), Some(outs)) => Some(Header(Atoi(records[0][0]), Atoi(records[0][1]), ins, outs))
      case _ => None
  }

  // ---------------------------------------------------------------------------
  // Gate lines

  /** wireToGate: an input wire is its own gate; a wire in the last numOut wires
      below totalWires is that output's gate; any other wire is looked up in wires,
      where 0 means "never driven" and yields -1. None is an index out of range. */
  function WireToGate(wires: seq<int>, wireNum: int, numIn: int, numOut: int, totalWires: int): Option<int>
  {
    if wireNum < numIn then Some(wireNum)
    else if wireNum >= totalWires - numOut && wireNum < totalWires then Some(numIn + (wireNum - (totalWires - numOut)))
    else if !(0 <= wireNum < |wires|) then None
    else if wires[wireNum] != 0 then Some(wires[wireNum])
    else Some(-1)
  }

  /** The parser state after some gate lines: the gate list and the wire map. */
  datatype State = State(gates: seq<Gate>, wires: seq<int>)

  /** A two-input gate line: inputs in fields 2 and 3, output wire in field 4. */
  function BinaryLine(t: GateType, rec: seq<string>, wires: seq<int>, numIn: int, numOut: int): Option<(Gate, int)>
  {
    if |rec| < 4 then None
    else match (WireToGate(wires, Atoi(rec[2]), numIn, numOut, numIn), WireToGate(wires, Atoi(rec[3]), numIn, numOut, numIn))
      case (Some(a), Some(b)) =>
        if a == -1 || b == -1 || |rec| < 5 then None
        else Some((Gate(t, [a, b], false), Atoi(rec[4])))
      case _ => None
  }

  /** A one-input gate line: input in field 2, output wire in field 3. */
  function UnaryLine(t: GateType, rec: seq<string>, wires: seq<int>, numIn: int, numOut: int): Option<(Gate, int)>
  {
    if |rec| < 3 then None
    else match WireToGate(wires, Atoi(rec[2]), numIn, numOut, numIn)
      case Some(a) =>
        if a == -1 || |rec| < 4 then None
        else Some((Gate(t, [a], false), Atoi(rec[3])))
      case None => None
  }

  /** The gate a line describes and the wire it drives, selected by the opcode in
      the last field. EQ keeps the constant bit of field 2 as its input and takes
      its output wire from field 4. */
  function GateLine(rec: seq<string>, wires: seq<int>, numIn: int, numOut: int): Option<(Gate, int)>
  {
    if |rec| == 0 then None
    else
      var op := rec[|rec| - 1];
      if op == "AND" then BinaryLine(And, rec, wires, numIn, numOut)
      else if op == "XOR" then BinaryLine(Xor, rec, wires, numIn, numOut)
      else if op == "OR" then BinaryLine(Or, rec, wires, numIn, numOut)
      else if op == "INV" then UnaryLine(Not, rec, wires, numIn, numOut)
      else if op == "EQ" then
        (if |rec| < 5 then None else Some((Gate(Const, [Atoi(rec[2])], false), Atoi(rec[4]))))
      else if op == "EQW" then UnaryLine(Copy, rec, wires, numIn, numOut)
      else None
  }

  predicate KnownOpcode(op: string)
  {
    op == "AND" || op == "XOR" || op == "OR" || op == "INV" || op == "EQ" || op == "EQW"
  }

  /** One gate line stored at gate index i: the gate goes to gates[i] and the wire
      map records i for the line's output wire. */
  function Step(st: State, rec: seq<string>, i: int, numIn: int, numOut: int): Option<State>
  {
    match GateLine(rec, st.wires, numIn, numOut)
    case None => None
    case Some((gate, out)) =>
      if 0 <= i < |st.gates| && 0 <= out < |st.wires| then
        Some(State(st.gates[i := gate], st.wires[out := i]))
      else None
  }

  /** The gate lines, in order, the k-th stored at gate index base + k. */
  function RunGates(init: State, lines: seq<seq<string>>, base: int, numIn: int, numOut: int): Option<State>
  {
    if lines == [] then Some(init)
    else match RunGates(init, lines[..|lines| - 1], base, numIn, numOut)
      case None => None
      case Some(st) => Step(st, lines[|lines| - 1], base + |lines| - 1, numIn, numOut)
  }

  /** Output i is connected to the gate that drives wire numWires - numOut + i. */
  function ConnectOutputs(c: Circuit, wires: seq<int>, numWires: int, k: nat): Option<Circuit>
  {
    if k == 0 then Some(c)
    else match ConnectOutputs(c, wires, numWires, k - 1)
      case None => None
      case Some(c') =>
        var w := k - 1 + (numWires - c.numOutputWires);
        if 0 <= w < |wires| then ConnectOutputWire(c', wires[w], k - 1) else None
  }

  /** The placeholder in a gate slot before its line is read (the Go zero value,
      whose type constant is not part of this model); a successful parse
      overwrites every such slot. */
  function BlankGate(): Gate { Gate(Copy, [], false) }

  /** The parser state before the gate lines: the pseudo-gates followed by one
      blank slot per gate line, and a wire map of zeros. */
  function InitialState(c0: Circuit, h: Header): State
    requires h.numGates >= 0 && h.numWires >= 0
  {
    State(c0.gates + seq(h.numGates, _ => BlankGate()), seq(h.numWires, _ => 0))
  }

  /** The whole parse: header, pseudo-gates, gate lines, output wiring. */
  function ParseBristol(records: seq<seq<string>>): Option<Circuit>
  {
    match ParseHeader(records)
    case None => None
    case Some(h) => ParseBody(records, h)
  }

  /** ParseBristol once the header is read: allocate the circuit, run the gate
      lines, connect the outputs. */
  function ParseBody(records: seq<seq<string>>, h: Header): Option<Circuit>
  {
      var totalIn, totalOut := Sum(h.inWidths), Sum(h.outWidths);
      match InitializeCircuit(totalIn, totalOut, |h.inWidths|, |h.outWidths|, h.inWidths, h.outWidths)
      case None => None
      case Some(c0) =>
        if h.numGates < 0 || h.numWires < 0 || |records| < 3 + h.numGates then None
        else
          match RunGates(InitialState(c0, h), records[3..3 + h.numGates], totalIn + totalOut, totalIn, totalOut)
          case None => None
          case Some(st) =>
            ConnectOutputs(c0.(gates := st.gates), st.wires, h.numWires, totalOut)
  }
}

module BristolParser {

  import opened Common
  import opened Circuits
  import opened Bristol

  /** Reads the count and widths of a header line into a fresh slice and sums them. */
  method ReadWidths(rec: seq<string>) returns (widths: Option<seq<int>>, total: int)
    ensures widths == Widths(rec)
    ensures widths.Some? ==> total == Sum(widths.value)
  {
    if |rec| == 0 {
      return None, 0;
    }
    var n := Atoi(rec[0]);
    if n < 0 || |rec| < n + 1 {
      return None, 0;
    }
    var perVar := new int[n];
    total := 0;
    for i := 0 to n
      invariant forall j :: 0 <= j < i ==> perVar[j] == Atoi(rec[j + 1])
      invariant total == Sum(perVar[..i])
    {
      perVar[i] := Atoi(rec[i + 1]);
      total := total + perVar[i];
      assert perVar[..i + 1][..i] == perVar[..i];
    }
    assert perVar[..] == perVar[..n];
    assert perVar[..] == seq(n, i requires 0 <= i < n => Atoi(rec[i + 1]));
    widths := Some(perVar[..]);
  }

  /** The body of the gate-line switch: decodes one line against the current wire map. */
  method ReadGateLine(rec: seq<string>, wires: array<int>, numIn: int, numOut: int) returns (r: Option<(Gate, int)>)
    ensures r == GateLine(rec, wires[..], numIn, numOut)
  {
    if |rec| == 0 {
      return None;
    }
    var op := rec[|rec| - 1];
    if op == "AND" || op == "XOR" || op == "OR" {
      if |rec| < 4 {
        return None;
      }
      var a := WireToGate(wires[..], Atoi(rec[2]), numIn, numOut, numIn);
      var b := WireToGate(wires[..], Atoi(rec[3]), numIn, numOut, numIn);
      if a.None? || b.None? || a.value == -1 || b.value == -1 || |rec| < 5 {
        return None;
      }
      var t := if op == "AND" then And else if op == "XOR" then Xor else Or;
      return Some((Gate(t, [a.value, b.value], false), Atoi(rec[4])));
    } else if op == "INV" || op == "EQW" {
      if |rec| < 3 {
        return None;
      }
      var a := WireToGate(wires[..], Atoi(rec[2]), numIn, numOut, numIn);
      if a.None? || a.value == -1 || |rec| < 4 {
        return None;
      }
      return Some((Gate(if op == "INV" then Not else Copy, [a.value], false), Atoi(rec[3])));
    } else if op == "EQ" {
      if |rec| < 5 {
        return None;
      }
      return Some((Gate(Const, [Atoi(rec[2])], false), Atoi(rec[4])));
    }
    return None;
  }

  /** The gate-line loop: line k fills gates[base + k] and records base + k as the
      driver of its output wire. */
  method FillGates(lines: seq<seq<string>>, gates: array<Gate>, wires: array<int>, base: int, numIn: int, numOut: int)
    returns (ok: bool)
    requires gates != wires as object
    requires gates.Length == base + |lines|
    modifies gates, wires
    ensures ok <==> RunGates(State(old(gates[..]), old(wires[..])), lines, base, numIn, numOut).Some?
    ensures ok ==> RunGates(State(old(gates[..]), old(wires[..])), lines, base, numIn, numOut) == Some(State(gates[..], wires[..]))
  {
    ghost var init := State(gates[..], wires[..]);
    var k := 0;
    while k < |lines|
      invariant 0 <= k <= |lines|
      invariant RunGates(init, lines[..k], base, numIn, numOut) == Some(State(gates[..], wires[..]))
    {
      RunGatesNext(init, lines, k, base, numIn, numOut);
      var stepped := ApplyLine(lines[k], gates, wires, base + k, numIn, numOut);
      if !stepped {
        NoneStaysNone(init, lines, k + 1, base, numIn, numOut);
        return false;
      }
      k := k + 1;
    }
    assert lines[..k] == lines;
    return true;
  }

  /** One pass of the gate-line loop: decode the line, then store its gate at
      index i and record i for its output wire; false where Go would fail or
      index out of range. */
  method ApplyLine(rec: seq<string>, gates: array<Gate>, wires: array<int>, i: int, numIn: int, numOut: int)
    returns (ok: bool)
    requires gates != wires as object
    modifies gates, wires
    ensures ok <==> Step(State(old(gates[..]), old(wires[..])), rec, i, numIn, numOut).Some?
    ensures ok ==> Step(State(old(gates[..]), old(wires[..])), rec, i, numIn, numOut) == Some(State(gates[..], wires[..]))
  {
    var line := ReadGateLine(rec, wires, numIn, numOut);
    if line.None? || !(0 <= i < gates.Length) || !(0 <= line.value.1 < wires.Length) {
      return false;
    }
    gates[i] := line.value.0;
    wires[line.value.1] := i;
    ok := true;
  }

  /** One more line: RunGates over lines[..k+1] is Step on line k after RunGates
      over lines[..k]. */
  lemma RunGatesNext(init: State, lines: seq<seq<string>>, k: nat, base: int, numIn: int, numOut: int)
    requires k < |lines|
    ensures RunGates(init, lines[..k + 1], base, numIn, numOut) ==
      match RunGates(init, lines[..k], base, numIn, numOut)
      case None => None
      case Some(st) => Step(st, lines[k], base + k, numIn, numOut)
  {
    assert lines[..k + 1][..k] == lines[..k];
  }

  /** Once a line fails, the whole run fails. */
  lemma {:induction false} NoneStaysNone(init: State, lines: seq<seq<string>>, k: nat, base: int, numIn: int, numOut: int)
    requires k <= |lines|
    requires RunGates(init, lines[..k], base, numIn, numOut).None?
    ensures RunGates(init, lines, base, numIn, numOut).None?
    decreases |lines| - k
  {
    if k < |lines| {
      assert lines[..k + 1][..k] == lines[..k];
      NoneStaysNone(init, lines, k + 1, base, numIn, numOut);
    } else {
      assert lines[..k] == lines;
    }
  }

  /** Line 1 holds the gate and wire counts, lines 2 and 3 the input and output
      variables with their widths. */
  method ReadHeader(records: seq<seq<string>>) returns (h: Option<Header>, totalIn: int, totalOut: int)
    ensures h == ParseHeader(records)
    ensures h.Some? ==> totalIn == Sum(h.value.inWidths) && totalOut == Sum(h.value.outWidths)
  {
    if |records| < 3 || |records[0]| < 2 {
      return None, 0, 0;
    }
    var ins, outs;
    ins, totalIn := ReadWidths(records[1]);
    outs, totalOut := ReadWidths(records[2]);
    if ins.None? || outs.None? {
      return None, 0, 0;
    }
    h := Some(Header(Atoi(records[0][0]), Atoi(records[0][1]), ins.value, outs.value));
  }

  /** ParseBRISTOLCircuitFile: reads the header, allocates the gate list and the
      wire map, fills the gates from the gate lines, then connects the output gates. */
  method ParseBristolCircuitFile(records: seq<seq<string>>) returns (res: Option<Circuit>)
    ensures res == ParseBristol(records)
  {
    var header, totalIn, totalOut := ReadHeader(records);
    if header.None? {
      return None;
    }
    res := ParseGates(records, header.value, totalIn, totalOut);
  }

  /** ParseBRISTOLCircuitFile after the header: initializeCircuit, the size
      checks, then the gate lines and the output wiring. */
  method ParseGates(records: seq<seq<string>>, h: Header, totalIn: int, totalOut: int) returns (res: Option<Circuit>)
    requires totalIn == Sum(h.inWidths) && totalOut == Sum(h.outWidths)
    ensures res == ParseBody(records, h)
  {
    var ins, outs := h.inWidths, h.outWidths;
    var c0 := InitializeCircuit(totalIn, totalOut, |ins|, |outs|, ins, outs);
    if c0.None? || h.numGates < 0 || h.numWires < 0 || |records| < 3 + h.numGates {
      return None;
    }
    res := RunAndConnect(records, h, c0.value, totalIn, totalOut);
  }

  /** The gate-line loop over fresh gate and wire slices, then the output loop. */
  method RunAndConnect(records: seq<seq<string>>, h: Header, c0: Circuit, totalIn: int, totalOut: int)
    returns (res: Option<Circuit>)
    requires totalIn == Sum(h.inWidths) && totalOut == Sum(h.outWidths)
    requires InitializeCircuit(totalIn, totalOut, |h.inWidths|, |h.outWidths|, h.inWidths, h.outWidths) == Some(c0)
    requires h.numGates >= 0 && h.numWires >= 0 && |records| >= 3 + h.numGates
    ensures res == ParseBody(records, h)
  {
    var numGates, numWires := h.numGates, h.numWires;
    var initGates := c0.gates + seq(numGates, _ => BlankGate());
    var gates := new Gate[|initGates|](i requires 0 <= i < |initGates| => initGates[i]);
    var wires := new int[numWires](_ => 0);
    ghost var init := State(gates[..], wires[..]);
    assert init == InitialState(c0, h);
    ghost var run := RunGates(init, records[3..3 + numGates], totalIn + totalOut, totalIn, totalOut);
    BodyOfRun(records, h, c0, run);
    var ok := FillGates(records[3..3 + numGates], gates, wires, totalIn + totalOut, totalIn, totalOut);
    if !ok {
      return None;
    }
    res := ConnectAll(c0.(gates := gates[..]), wires, numWires);
  }

  /** ParseBody past its allocation checks: whatever the gate lines give. */
  lemma BodyOfRun(records: seq<seq<string>>, h: Header, c0: Circuit, run: Option<State>)
    requires InitializeCircuit(Sum(h.inWidths), Sum(h.outWidths), |h.inWidths|, |h.outWidths|, h.inWidths, h.outWidths) == Some(c0)
    requires h.numGates >= 0 && h.numWires >= 0 && |records| >= 3 + h.numGates
    requires run == RunGates(InitialState(c0, h),
                             records[3..3 + h.numGates], Sum(h.inWidths) + Sum(h.outWidths), Sum(h.inWidths), Sum(h.outWidths))
    ensures ParseBody(records, h) ==
      if run.None? then None else ConnectOutputs(c0.(gates := run.value.gates), run.value.wires, h.numWires, Sum(h.outWidths))
  {
  }

  /** The output loop: OUTPUT gate j reads from the gate driving wire
      numWires - numOutputWires + j. */
  method ConnectAll(start: Circuit, wires: array<int>, numWires: int) returns (res: Option<Circuit>)
    requires start.numOutputWires >= 0
    ensures res == ConnectOutputs(start, wires[..], numWires, start.numOutputWires)
  {
    var circ := start;
    var j := 0;
    while j < start.numOutputWires
      invariant 0 <= j <= start.numOutputWires
      invariant ConnectOutputs(start, wires[..], numWires, j) == Some(circ)
    {
      var w := j + (numWires - start.numOutputWires);
      if !(0 <= w < wires.Length) {
        ConnectFailureStays(start, wires[..], numWires, j + 1, start.numOutputWires);
        return None;
      }
      var next := ConnectOutputWire(circ, wires[w], j);
      if next.None? {
        ConnectFailureStays(start, wires[..], numWires, j + 1, start.numOutputWires);
        return None;
      }
      circ := next.value;
      j := j + 1;
    }
    return Some(circ);
  }

  lemma {:induction false} ConnectFailureStays(c: Circuit, wires: seq<int>, numWires: int, k: nat, n: nat)
    requires k <= n
    requires ConnectOutputs(c, wires, numWires, k).None?
    ensures ConnectOutputs(c, wires, numWires, n).None?
    decreases n - k
  {
    if k < n {
      ConnectFailureStays(c, wires, numWires, k + 1, n);
    }
  }
}
