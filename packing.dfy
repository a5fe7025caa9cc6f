/** The byte format a garbled circuit travels in: the two labels of every input
    wire, then every gate's table rows in gate order. No lengths are written;
    the circuit's own shape says how many rows each gate owns. */
module Packing {
  import opened Common
  import opened Circuits
  import opened Garble

  // ---------------------------------------------------------------------------
  // Rows and bytes

  /** The bytes of a list of 16-byte rows, one after the other. */
  function Flat(rows: seq<Label>): (r: seq<byte>)
    ensures |r| == 16 * |rows|
  {
    if rows == [] then [] else Flat(rows[..|rows| - 1]) + rows[|rows| - 1]
  }

  lemma {:induction false} FlatAppend(a: seq<Label>, b: seq<Label>)
    ensures Flat(a + b) == Flat(a) + Flat(b)
  {
    if b != [] {
      var n := |b| - 1;
      assert (a + b)[..|a + b| - 1] == a + b[..n];
      assert (a + b)[|a + b| - 1] == b[n];
      FlatAppend(a, b[..n]);
      calc {
        Flat(a + b);
        Flat(a + b[..n]) + b[n];
        Flat(a) + Flat(b[..n]) + b[n];
        Flat(a) + Flat(b);
      }
    } else {
      assert a + b == a;
    }
  }

  lemma FlatSnoc(rows: seq<Label>, x: Label)
    ensures Flat(rows + [x]) == Flat(rows) + x
  {
    assert (rows + [x])[..|rows|] == rows;
  }

  /** Row k sits at bytes 16k .. 16k+16. */
  lemma {:induction false} FlatIndex(rows: seq<Label>, k: int)
    requires 0 <= k < |rows|
    ensures Flat(rows)[16 * k..16 * k + 16] == rows[k]
  {
    var n := |rows| - 1;
    if k < n {
      FlatIndex(rows[..n], k);
      assert Flat(rows) == Flat(rows[..n]) + rows[n];
    }
  }

  /** The 16-byte row k of a buffer, or the zero label past its end. */
  function LabelAt(b: seq<byte>, k: int): (r: Label)
    ensures 0 <= k && 16 * k + 16 <= |b| ==> r == b[16 * k..16 * k + 16]
  {
    if 0 <= k && 16 * k + 16 <= |b| then b[16 * k..16 * k + 16] else ZeroLabel()
  }

  /** Label 0 then label 1 of each of the first n wires. */
  function InputLabelRows(w: seq<WireLabelSet>, n: nat): (r: seq<Label>)
    requires n <= |w|
    ensures |r| == 2 * n
    ensures forall i :: 0 <= i < n ==> r[2 * i] == w[i].zero && r[2 * i + 1] == w[i].one
  {
    if n == 0 then [] else InputLabelRows(w, n - 1) + [w[n - 1].zero, w[n - 1].one]
  }

  /** The rows of the first k tables, in gate order. */
  function TableRows(tables: seq<seq<Label>>, k: nat): seq<Label>
    requires k <= |tables|
  {
    if k == 0 then [] else TableRows(tables, k - 1) + tables[k - 1]
  }

  /** The number of rows PackedUnmarshal reads for a gate: none for an INPUT
      gate, the garbling table size for every other one. */
  function RowCount(gate: Gate): (r: nat)
    ensures gate.gateType == Input ==> r == 0
    ensures gate.gateType != Input ==> r == TableSize(gate.gateType)
  {
    if gate.gateType == Input then 0 else TableSize(gate.gateType)
  }

  /** The rows owned by the gates before gate k. */
  function RowsBefore(gates: seq<Gate>, k: nat): nat
    requires k <= |gates|
  {
    if k == 0 then 0 else RowsBefore(gates, k - 1) + RowCount(gates[k - 1])
  }

  lemma {:induction false} RowsBeforeMono(gates: seq<Gate>, j: nat, k: nat)
    requires j <= k <= |gates|
    ensures RowsBefore(gates, j) <= RowsBefore(gates, k)
  {
    if j < k {
      RowsBeforeMono(gates, j, k - 1);
    }
  }

  /** Every table has the number of rows its gate owns. */
  predicate TablesShaped(c: Circuit, tables: seq<seq<Label>>)
  {
    && |tables| == |c.gates|
    && forall g :: 0 <= g < |tables| ==> |tables[g]| == RowCount(c.gates[g])
  }

  /** A garbled circuit's tables have the shape PackedUnmarshal expects: the
      table size rule is the same on both sides. */
  lemma WellGarbledShaped(c: Circuit, w: seq<WireLabelSet>, tables: seq<seq<Label>>, delta: Label, h: Hash)
    requires WellGarbled(c, w, tables, delta, h)
    ensures TablesShaped(c, tables)
  {
    forall g | 0 <= g < |tables|
      ensures |tables[g]| == RowCount(c.gates[g])
    {
      if c.gates[g].gateType != Input {
        assert tables[g] == GateTable(c, w, g, h);
      }
    }
  }

  /** In shaped tables the first k tables hold RowsBefore(k) rows. */
  lemma {:induction false} TableRowsLength(c: Circuit, tables: seq<seq<Label>>, k: nat)
    requires TablesShaped(c, tables) && k <= |tables|
    ensures |TableRows(tables, k)| == RowsBefore(c.gates, k)
  {
    if k > 0 {
      TableRowsLength(c, tables, k - 1);
    }
  }

  /** In shaped tables, row j of gate g is row RowsBefore(g) + j of the list. */
  lemma {:induction false} TableRowsIndex(c: Circuit, tables: seq<seq<Label>>, k: nat, g: nat, j: nat)
    requires TablesShaped(c, tables) && g < k <= |tables| && j < |tables[g]|
    ensures RowsBefore(c.gates, g) + j < |TableRows(tables, k)|
    ensures TableRows(tables, k)[RowsBefore(c.gates, g) + j] == tables[g][j]
  {
    TableRowsLength(c, tables, k - 1);
    if g < k - 1 {
      TableRowsIndex(c, tables, k - 1, g, j);
    }
  }

  // ---------------------------------------------------------------------------
  // The format

  /** The packed bytes of n input label pairs and the tables. */
  function Packed(w: seq<WireLabelSet>, n: nat, tables: seq<seq<Label>>): seq<byte>
    requires n <= |w|
  {
    Flat(InputLabelRows(w, n) + TableRows(tables, |tables|))
  }

  /** The number of 16-byte rows a circuit's packing holds. */
  function ExpectedRows(c: Circuit): int
  {
    2 * c.numInputWires + RowsBefore(c.gates, |c.gates|)
  }

  /** The table of gate g read out of a packing. */
  function UnpackTable(b: seq<byte>, c: Circuit, g: nat): (t: seq<Label>)
    requires g < |c.gates|
    ensures |t| == RowCount(c.gates[g])
  {
    var base := 2 * c.numInputWires + RowsBefore(c.gates, g);
    seq<Label>(RowCount(c.gates[g]), j => LabelAt(b, base + j))
  }

  datatype Unpacked = Unpacked(labels: seq<WireLabelSet>, tables: seq<seq<Label>>)

  /** What PackedUnmarshal recovers: nothing unless the buffer holds exactly the
      rows the circuit calls for, else the label pairs and tables at their
      offsets. */
  function Unpack(b: seq<byte>, c: Circuit): Option<Unpacked>
  {
    if c.numInputWires < 0 || |b| != 16 * ExpectedRows(c) then None
    else Some(Unpacked(
      seq(c.numInputWires, i => WireLabelSet(LabelAt(b, 2 * i), LabelAt(b, 2 * i + 1))),
      seq(|c.gates|, g requires 0 <= g < |c.gates| => UnpackTable(b, c, g))))
  }

  /** Unpacking what was packed for the same circuit gives back the input label
      pairs and the tables. */
  lemma PackRoundTrip(c: Circuit, w: seq<WireLabelSet>, tables: seq<seq<Label>>)
    requires 0 <= c.numInputWires <= |w|
    requires TablesShaped(c, tables)
    ensures Unpack(Packed(w, c.numInputWires, tables), c) == Some(Unpacked(w[..c.numInputWires], tables))
  {
    var n := c.numInputWires;
    var b := Packed(w, n, tables);
    TableRowsLength(c, tables, |tables|);
    assert |b| == 16 * ExpectedRows(c);
    var u := Unpack(b, c).value;
    forall i | 0 <= i < n
      ensures u.labels[i] == w[i]
    {
      PackedRowAt(w, n, tables, 2 * i);
      PackedRowAt(w, n, tables, 2 * i + 1);
    }
    forall g | 0 <= g < |tables|
      ensures u.tables[g] == tables[g]
    {
      UnpackTableOfPacked(c, w, tables, g);
    }
    assert u.labels == w[..n];
    assert u.tables == tables;
  }

  /** A circuit as GarbleCircuit leaves it survives packing and unpacking. */
  lemma GarbledPackRoundTrip(c: Circuit, w: seq<WireLabelSet>, tables: seq<seq<Label>>, delta: Label, h: Hash)
    requires WellGarbled(c, w, tables, delta, h)
    ensures 0 <= c.numInputWires <= |w|
    ensures Unpack(Packed(w, c.numInputWires, tables), c) == Some(Unpacked(w[..c.numInputWires], tables))
  {
    WellGarbledShaped(c, w, tables, delta, h);
    PackRoundTrip(c, w, tables);
  }

  /** Row k of a packing is row k of the label rows followed by the table rows. */
  lemma PackedRowAt(w: seq<WireLabelSet>, n: nat, tables: seq<seq<Label>>, k: int)
    requires n <= |w| && 0 <= k < |InputLabelRows(w, n) + TableRows(tables, |tables|)|
    ensures LabelAt(Packed(w, n, tables), k) == (InputLabelRows(w, n) + TableRows(tables, |tables|))[k]
  {
    FlatIndex(InputLabelRows(w, n) + TableRows(tables, |tables|), k);
  }

  /** The table UnpackTable reads out of a packing is the packed one. */
  lemma UnpackTableOfPacked(c: Circuit, w: seq<WireLabelSet>, tables: seq<seq<Label>>, g: nat)
    requires 0 <= c.numInputWires <= |w| && TablesShaped(c, tables) && g < |tables|
    ensures UnpackTable(Packed(w, c.numInputWires, tables), c, g) == tables[g]
  {
    var n := c.numInputWires;
    var t := UnpackTable(Packed(w, n, tables), c, g);
    forall j | 0 <= j < |tables[g]|
      ensures t[j] == tables[g][j]
    {
      TableRowsIndex(c, tables, |tables|, g, j);
      PackedRowAt(w, n, tables, 2 * n + RowsBefore(c.gates, g) + j);
    }
  }

  // ---------------------------------------------------------------------------
  // The two methods (receiver garb)

  /** PackedMarshal: label 0 and label 1 of every input wire, then every row of
      every table. None where Go indexes past the label list. */
  method PackedMarshal(garb: GarbledCircuit) returns (r: Option<seq<byte>>)
    ensures garb.numInputWires > |garb.wireLabels| ==> r == None
    ensures garb.numInputWires <= |garb.wireLabels| ==>
      r == Some(Packed(garb.wireLabels, if garb.numInputWires < 0 then 0 else garb.numInputWires, garb.garbledGates))
  {
    if garb.numInputWires > |garb.wireLabels| {
      return None;
    }
    var w, tables := garb.wireLabels, garb.garbledGates;
    var labels := PackInputLabels(w, if garb.numInputWires < 0 then 0 else garb.numInputWires);
    var gates := PackTables(tables);
    FlatAppend(InputLabelRows(w, if garb.numInputWires < 0 then 0 else garb.numInputWires), TableRows(tables, |tables|));
    return Some(labels + gates);
  }

  /** The first loop of PackedMarshal: label 0 then label 1 of each input wire. */
  method PackInputLabels(w: seq<WireLabelSet>, n: nat) returns (packed: seq<byte>)
    requires n <= |w|
    ensures packed == Flat(InputLabelRows(w, n))
  {
    packed := [];
    for i := 0 to n
      invariant packed == Flat(InputLabelRows(w, i))
    {
      ghost var rows := InputLabelRows(w, i);
      assert InputLabelRows(w, i + 1) == (rows + [w[i].zero]) + [w[i].one];
      FlatSnoc(rows, w[i].zero);
      FlatSnoc(rows + [w[i].zero], w[i].one);
      packed := packed + w[i].zero;
      packed := packed + w[i].one;
    }
  }

  /** The second loop of PackedMarshal: the tables of the gates, in order. */
  method PackTables(tables: seq<seq<Label>>) returns (packed: seq<byte>)
    ensures packed == Flat(TableRows(tables, |tables|))
  {
    packed := [];
    for k := 0 to |tables|
      invariant packed == Flat(TableRows(tables, k))
    {
      var rows := PackTable(tables[k]);
      FlatAppend(TableRows(tables, k), tables[k]);
      packed := packed + rows;
    }
  }

  /** The inner loop of PackedMarshal: the rows of one table, in order. */
  method PackTable(table: seq<Label>) returns (packed: seq<byte>)
    ensures packed == Flat(table)
  {
    packed := [];
    for j := 0 to |table|
      invariant packed == Flat(table[..j])
    {
      assert table[..j + 1] == table[..j] + [table[j]];
      FlatSnoc(table[..j], table[j]);
      packed := packed + table[j];
    }
    assert table[..|table|] == table;
  }

  /** bytes.Buffer.Read into a 16-byte row at offset pos: the next 16 bytes, or
      nothing when fewer are left (a short read fails, an empty buffer makes
      check panic). */
  function ReadRow(b: seq<byte>, pos: nat): (r: Option<Label>)
    ensures r.Some? <==> pos + 16 <= |b|
    ensures r.Some? ==> r.value == b[pos..pos + 16]
  {
    if pos + 16 <= |b| then Some(b[pos..pos + 16]) else None
  }

  /** PackedUnmarshal: copies the wire counts from the circuit, reads two labels
      per input wire, then TableSize rows for every gate but the INPUT ones, and
      fails on a short read or on bytes left over. */
  method PackedUnmarshal(garb: GarbledCircuit, b: seq<byte>, c: Circuit) returns (ok: bool)
    modifies garb
    ensures garb.numInputWires == c.numInputWires && garb.numOutputWires == c.numOutputWires
    ensures garb.freeXorDelta == old(garb.freeXorDelta)
    ensures ok <==> Unpack(b, c).Some?
    ensures ok ==> garb.wireLabels == Unpack(b, c).value.labels && garb.garbledGates == Unpack(b, c).value.tables
  {
    garb.numInputWires := c.numInputWires;
    garb.numOutputWires := c.numOutputWires;
    if c.numInputWires < 0 {
      return false;
    }
    ok := UnmarshalLabels(garb, b, c);
    if !ok {
      return;
    }
    ok := UnmarshalTables(garb, b, c);
  }

  /** The first loop of PackedUnmarshal: two labels per input wire. */
  method UnmarshalLabels(garb: GarbledCircuit, b: seq<byte>, c: Circuit) returns (ok: bool)
    requires garb.numInputWires == c.numInputWires >= 0
    modifies garb
    ensures garb.numInputWires == c.numInputWires && garb.numOutputWires == old(garb.numOutputWires)
    ensures garb.freeXorDelta == old(garb.freeXorDelta)
    ensures !ok ==> |b| < 16 * 2 * c.numInputWires
    ensures ok ==> 16 * 2 * c.numInputWires <= |b|
    ensures ok ==> garb.wireLabels == seq(c.numInputWires, i => WireLabelSet(LabelAt(b, 2 * i), LabelAt(b, 2 * i + 1)))
  {
    var n := c.numInputWires;
    garb.wireLabels := seq(n, _ => WireLabelSet(ZeroLabel(), ZeroLabel()));
    var pairs := ReadLabelPairs(b, n);
    if pairs.None? {
      return false;
    }
    garb.wireLabels := pairs.value;
    ok := true;
  }

  /** The loop of UnmarshalLabels on the byte slice: label 0 then label 1 of
      each of n wires, failing on a short read. */
  method ReadLabelPairs(b: seq<byte>, n: nat) returns (r: Option<seq<WireLabelSet>>)
    ensures r.Some? <==> 32 * n <= |b|
    ensures r.Some? ==> r.value == seq(n, i => WireLabelSet(LabelAt(b, 2 * i), LabelAt(b, 2 * i + 1)))
  {
    var pairs: seq<WireLabelSet> := [];
    var pos := 0;
    for i := 0 to n
      invariant pos == 32 * i <= |b|
      invariant |pairs| == i
      invariant forall k :: 0 <= k < i ==> pairs[k] == WireLabelSet(LabelAt(b, 2 * k), LabelAt(b, 2 * k + 1))
    {
      var label0 := ReadRow(b, pos);
      var label1 := ReadRow(b, pos + 16);
      if label0.None? || label1.None? {
        assert |b| < 32 * (i + 1) <= 32 * n;
        return None;
      }
      pairs := pairs + [WireLabelSet(label0.value, label1.value)];
      pos := pos + 32;
    }
    assert pairs == seq(n, i => WireLabelSet(LabelAt(b, 2 * i), LabelAt(b, 2 * i + 1)));
    return Some(pairs);
  }

  /** The inner loop of UnmarshalTables: size rows from row base on, failing
      on a short read. */
  method ReadTable(b: seq<byte>, base: nat, size: nat) returns (r: Option<seq<Label>>)
    requires 16 * base <= |b|
    ensures r.Some? <==> 16 * (base + size) <= |b|
    ensures r.Some? ==> |r.value| == size && forall k :: 0 <= k < size ==> r.value[k] == LabelAt(b, base + k)
  {
    var table: seq<Label> := seq(size, _ => ZeroLabel());
    var pos := 16 * base;
    for j := 0 to size
      invariant pos == 16 * (base + j) <= |b|
      invariant |table| == size
      invariant forall k :: 0 <= k < j ==> table[k] == LabelAt(b, base + k)
    {
      var row := ReadRow(b, pos);
      if row.None? {
        return None;
      }
      table := table[j := row.value];
      pos := pos + 16;
    }
    return Some(table);
  }

  /** The second loop of PackedUnmarshal and the check for leftover bytes. */
  method UnmarshalTables(garb: GarbledCircuit, b: seq<byte>, c: Circuit) returns (ok: bool)
    requires c.numInputWires >= 0 && 16 * 2 * c.numInputWires <= |b|
    modifies garb
    ensures garb.numInputWires == old(garb.numInputWires) && garb.numOutputWires == old(garb.numOutputWires)
    ensures garb.freeXorDelta == old(garb.freeXorDelta) && garb.wireLabels == old(garb.wireLabels)
    ensures ok <==> |b| == 16 * ExpectedRows(c)
    ensures ok ==> garb.garbledGates == seq(|c.gates|, g requires 0 <= g < |c.gates| => UnpackTable(b, c, g))
  {
    var tables;
    ok, tables := ReadTables(b, c);
    garb.garbledGates := tables;
  }

  /** The loop of UnmarshalTables over the gates, on the table slice it
      fills: no rows for an INPUT gate, TableSize rows for every other gate,
      and success only when the rows end exactly at the end of the bytes. */
  method ReadTables(b: seq<byte>, c: Circuit) returns (ok: bool, tables: seq<seq<Label>>)
    requires c.numInputWires >= 0 && 16 * 2 * c.numInputWires <= |b|
    ensures |tables| == |c.gates|
    ensures ok <==> |b| == 16 * ExpectedRows(c)
    ensures ok ==> tables == seq(|c.gates|, g requires 0 <= g < |c.gates| => UnpackTable(b, c, g))
  {
    var n := c.numInputWires;
    var gates := c.gates;
    tables := seq(|gates|, _ => []);
    var pos := 32 * n;
    for i := 0 to |gates|
      invariant pos == 16 * (2 * n + RowsBefore(gates, i)) <= |b|
      invariant |tables| == |gates|
      invariant forall g :: 0 <= g < i ==> tables[g] == UnpackTable(b, c, g)
    {
      var read := ReadGate(b, c, i);
      if read.None? {
        RowsBeforeMono(gates, i + 1, |gates|);
        return false, tables;
      }
      pos := pos + 16 * |read.value|;
      tables := tables[i := read.value];
    }
    ok := pos == |b|;
    TablesUnpacked(b, c, tables);
  }

  /** One pass of the loop of UnmarshalTables: no rows for an INPUT gate,
      TableSize rows for any other, failing on a short read. */
  method ReadGate(b: seq<byte>, c: Circuit, g: nat) returns (r: Option<seq<Label>>)
    requires g < |c.gates| && c.numInputWires >= 0
    requires 16 * (2 * c.numInputWires + RowsBefore(c.gates, g)) <= |b|
    ensures r.Some? <==> 16 * (2 * c.numInputWires + RowsBefore(c.gates, g + 1)) <= |b|
    ensures r.Some? ==> r.value == UnpackTable(b, c, g)
  {
    if c.gates[g].gateType == Input {
      assert UnpackTable(b, c, g) == [];
      return Some([]);
    }
    var read := ReadTable(b, 2 * c.numInputWires + RowsBefore(c.gates, g), TableSize(c.gates[g].gateType));
    if read.None? {
      return None;
    }
    ReadIsUnpacked(b, c, g, read.value);
    return read;
  }

  /** The rows ReadTable returns for gate g are its unpacked table. */
  lemma ReadIsUnpacked(b: seq<byte>, c: Circuit, g: nat, t: seq<Label>)
    requires g < |c.gates| && c.gates[g].gateType != Input && |t| == TableSize(c.gates[g].gateType)
    requires forall k :: 0 <= k < |t| ==> t[k] == LabelAt(b, 2 * c.numInputWires + RowsBefore(c.gates, g) + k)
    ensures t == UnpackTable(b, c, g)
  {
    var u := UnpackTable(b, c, g);
    forall k | 0 <= k < |t|
      ensures t[k] == u[k]
    {
    }
  }

  /** Tables that agree gate by gate with the unpacked ones are the unpacked tables. */
  lemma TablesUnpacked(b: seq<byte>, c: Circuit, tables: seq<seq<Label>>)
    requires |tables| == |c.gates| && forall g :: 0 <= g < |tables| ==> tables[g] == UnpackTable(b, c, g)
    ensures tables == seq(|c.gates|, g requires 0 <= g < |c.gates| => UnpackTable(b, c, g))
  {
  }
}
