/** The per-class branch builders: lines, two-winding transformers, VSC
    converters and DC lines. Each walks its device list in order, stores the
    device's parameters at its enumeration index i and sets the 1s of row i
    of the device-bus incidence matrix, at the "from" and the "to" bus. */
module BranchDeviceData {
  import opened CircuitModel

  /** Both terminals of a two-terminal device have a bus index. */
  predicate Mapped(busFrom: Bus, busTo: Bus, busDict: BusDict) {
    busFrom in busDict && busTo in busDict
  }

  /** Row i of a device-bus incidence matrix: 1 at the "from" and at the
      "to" bus of device i, 0 elsewhere (a single 1 when both coincide). */
  function Terminals(f: int, t: int, b: int): int {
    if b == f || b == t then 1 else 0
  }

  /** The sum of the first m entries of such a row. */
  function TerminalsCount(f: int, t: int, m: nat): int {
    if m == 0 then 0 else TerminalsCount(f, t, m - 1) + Terminals(f, t, m - 1)
  }

  /** A row of an incidence matrix over n buses sums to 2 for a device
      between two distinct buses, and to 1 for one whose terminals coincide;
      over a prefix of the buses it counts the terminals inside the prefix. */
  lemma {:induction false} TerminalsRowSum(f: int, t: int, m: nat)
    ensures TerminalsCount(f, t, m) ==
            (if 0 <= f < m then 1 else 0) + (if 0 <= t < m && t != f then 1 else 0)
    ensures 0 <= f < m && 0 <= t < m ==> TerminalsCount(f, t, m) == if f == t then 1 else 2
  {
    if m > 0 {
      TerminalsRowSum(f, t, m - 1);
    }
  }

  // ---------------------------------------------------------------- lines

  datatype LineRow = LineRow(name: string, R: real, X: real, B: real)

  /** The row of a line: its resistance goes through the temperature
      correction and the tolerance band. */
  function LineEntry(elm: Line, applyTemperature: bool, mode: ImpedanceMode): LineRow {
    LineRow(elm.name, CorrectedResistance(elm.R, elm.RCorrected, applyTemperature, mode, elm.tolerance),
            elm.X, elm.B)
  }

  class LinesData {
    const rows: array<LineRow>
    const cLineBus: array2<int>

    constructor (nline: nat, nbus: nat)
      ensures fresh(rows) && fresh(cLineBus)
      ensures rows.Length == nline && cLineBus.Length0 == nline && cLineBus.Length1 == nbus
      ensures forall i, b :: 0 <= i < nline && 0 <= b < nbus ==> cLineBus[i, b] == 0
    {
      rows := new LineRow[nline](_ => LineRow("", 0.0, 0.0, 0.0));
      cLineBus := new int[nline, nbus]((_, _) => 0);
    }
  }

  method GetLineData(circuit: MultiCircuit, busDict: BusDict, applyTemperature: bool, mode: ImpedanceMode)
    returns (data: LinesData, ok: bool)
    requires BusIndexMap(busDict, |circuit.buses|)
    ensures fresh(data.rows) && fresh(data.cLineBus)
    ensures data.rows.Length == |circuit.lines|
    ensures data.cLineBus.Length0 == |circuit.lines| && data.cLineBus.Length1 == |circuit.buses|
    ensures ok <==> forall i :: 0 <= i < |circuit.lines| ==>
                      Mapped(circuit.lines[i].busFrom, circuit.lines[i].busTo, busDict)
    ensures ok ==> forall i :: 0 <= i < |circuit.lines| ==>
                     data.rows[i] == LineEntry(circuit.lines[i], applyTemperature, mode)
    ensures ok ==> forall i, b :: 0 <= i < |circuit.lines| && 0 <= b < |circuit.buses| ==>
                     data.cLineBus[i, b] ==
                     Terminals(busDict[circuit.lines[i].busFrom], busDict[circuit.lines[i].busTo], b)
  {
    var devices := circuit.lines;
    data := new LinesData(|devices|, |circuit.buses|);
    ok := true;
    var i := 0;
    while i < |devices|
      invariant 0 <= i <= |devices|
      invariant forall j :: 0 <= j < i ==> Mapped(devices[j].busFrom, devices[j].busTo, busDict)
      invariant forall j :: 0 <= j < i ==> data.rows[j] == LineEntry(devices[j], applyTemperature, mode)
      invariant forall j, b :: 0 <= j < |devices| && 0 <= b < |circuit.buses| ==>
                  data.cLineBus[j, b] ==
                  if j < i then Terminals(busDict[devices[j].busFrom], busDict[devices[j].busTo], b) else 0
    {
      var elm := devices[i];
      if !Mapped(elm.busFrom, elm.busTo, busDict) {
        ok := false;
        return;
      }
      var f := busDict[elm.busFrom];
      var t := busDict[elm.busTo];
      data.rows[i] := LineEntry(elm, applyTemperature, mode);
      data.cLineBus[i, f] := 1;
      data.cLineBus[i, t] := 1;
      i := i + 1;
    }
  }

  // ---------------------------------------------------------------- transformers

  datatype TransformerRow = TransformerRow(
    name: string, R: real, X: real, G: real, B: real,
    tapModule: real, tapAngle: real, isBusToRegulated: bool,
    tapPosition: int, minTap: int, maxTap: int, incRegUp: real, incRegDown: real,
    vset: real, controlMode: TransformerControl,
    busToRegulatedIdx: int, tapF: real, tapT: real)

  /** The row of a transformer between bus indices f and t: the regulated bus
      is t when the "to" side is regulated and f otherwise. */
  function TransformerEntry(elm: Transformer, f: int, t: int): TransformerRow {
    TransformerRow(elm.name, elm.R, elm.X, elm.G, elm.B,
                   elm.tapModule, elm.angle, elm.busToRegulated,
                   elm.tapChanger.tap, elm.tapChanger.minTap, elm.tapChanger.maxTap,
                   elm.tapChanger.incRegUp, elm.tapChanger.incRegDown,
                   elm.vset, elm.controlMode,
                   if elm.busToRegulated then t else f,
                   elm.virtualTapFrom, elm.virtualTapTo)
  }

  class TransformerData {
    const rows: array<TransformerRow>
    const cTrBus: array2<int>

    constructor (ntr: nat, nbus: nat)
      ensures fresh(rows) && fresh(cTrBus)
      ensures rows.Length == ntr && cTrBus.Length0 == ntr && cTrBus.Length1 == nbus
      ensures forall i, b :: 0 <= i < ntr && 0 <= b < nbus ==> cTrBus[i, b] == 0
    {
      rows := new TransformerRow[ntr](_ => TransformerRow("", 0.0, 0.0, 0.0, 0.0, 0.0, 0.0, false,
                                                          0, 0, 0, 0.0, 0.0, 0.0, VTo, 0, 0.0, 0.0));
      cTrBus := new int[ntr, nbus]((_, _) => 0);
    }
  }

  method GetTransformerData(circuit: MultiCircuit, busDict: BusDict)
    returns (data: TransformerData, ok: bool)
    requires BusIndexMap(busDict, |circuit.buses|)
    ensures fresh(data.rows) && fresh(data.cTrBus)
    ensures data.rows.Length == |circuit.transformers2w|
    ensures data.cTrBus.Length0 == |circuit.transformers2w| && data.cTrBus.Length1 == |circuit.buses|
    ensures ok <==> forall i :: 0 <= i < |circuit.transformers2w| ==>
                      Mapped(circuit.transformers2w[i].busFrom, circuit.transformers2w[i].busTo, busDict)
    ensures ok ==> forall i :: 0 <= i < |circuit.transformers2w| ==>
                     var elm := circuit.transformers2w[i];
                     data.rows[i] == TransformerEntry(elm, busDict[elm.busFrom], busDict[elm.busTo])
    ensures ok ==> forall i, b :: 0 <= i < |circuit.transformers2w| && 0 <= b < |circuit.buses| ==>
                     var elm := circuit.transformers2w[i];
                     data.cTrBus[i, b] == Terminals(busDict[elm.busFrom], busDict[elm.busTo], b)
    ensures ok ==> forall i :: 0 <= i < |circuit.transformers2w| ==>
                     var elm := circuit.transformers2w[i];
                     var r := data.rows[i].busToRegulatedIdx;
                     && 0 <= r < |circuit.buses| && data.cTrBus[i, r] == 1
                     && r == busDict[if elm.busToRegulated then elm.busTo else elm.busFrom]
                     && data.rows[i].isBusToRegulated == elm.busToRegulated
  {
    var devices := circuit.transformers2w;
    data := new TransformerData(|devices|, |circuit.buses|);
    ok := true;
    var i := 0;
    while i < |devices|
      invariant 0 <= i <= |devices|
      invariant forall j :: 0 <= j < i ==> Mapped(devices[j].busFrom, devices[j].busTo, busDict)
      invariant forall j :: 0 <= j < i ==>
                  data.rows[j] == TransformerEntry(devices[j], busDict[devices[j].busFrom], busDict[devices[j].busTo])
      invariant forall j, b :: 0 <= j < |devices| && 0 <= b < |circuit.buses| ==>
                  data.cTrBus[j, b] ==
                  if j < i then Terminals(busDict[devices[j].busFrom], busDict[devices[j].busTo], b) else 0
    {
      var elm := devices[i];
      if !Mapped(elm.busFrom, elm.busTo, busDict) {
        ok := false;
        return;
      }
      var f := busDict[elm.busFrom];
      var t := busDict[elm.busTo];
      data.rows[i] := TransformerEntry(elm, f, t);
      data.cTrBus[i, f] := 1;
      data.cTrBus[i, t] := 1;
      i := i + 1;
    }
  }

  // ---------------------------------------------------------------- VSC converters

  datatype VscRow = VscRow(
    name: string, R1: real, X1: real, G0: real, Beq: real, m: real, theta: real,
    Pset: real, Qset: real, VacSet: real, VdcSet: real, controlMode: ConverterControl)

  function VscEntry(elm: Vsc): VscRow {
    VscRow(elm.name, elm.R1, elm.X1, elm.G0, elm.Beq, elm.m, elm.theta,
           elm.Pset, elm.Qset, elm.VacSet, elm.VdcSet, elm.controlMode)
  }

  class VscData {
    const rows: array<VscRow>
    const cVscBus: array2<int>

    constructor (nvsc: nat, nbus: nat)
      ensures fresh(rows) && fresh(cVscBus)
      ensures rows.Length == nvsc && cVscBus.Length0 == nvsc && cVscBus.Length1 == nbus
      ensures forall i, b :: 0 <= i < nvsc && 0 <= b < nbus ==> cVscBus[i, b] == 0
    {
      rows := new VscRow[nvsc](_ => VscRow("", 0.0, 0.0, 0.0, 0.0, 0.0, 0.0, 0.0, 0.0, 0.0, 0.0, Type1Vac));
      cVscBus := new int[nvsc, nbus]((_, _) => 0);
    }
  }

  method GetVscData(circuit: MultiCircuit, busDict: BusDict)
    returns (data: VscData, ok: bool)
    requires BusIndexMap(busDict, |circuit.buses|)
    ensures fresh(data.rows) && fresh(data.cVscBus)
    ensures data.rows.Length == |circuit.vscConverters|
    ensures data.cVscBus.Length0 == |circuit.vscConverters| && data.cVscBus.Length1 == |circuit.buses|
    ensures ok <==> forall i :: 0 <= i < |circuit.vscConverters| ==>
                      Mapped(circuit.vscConverters[i].busFrom, circuit.vscConverters[i].busTo, busDict)
    ensures ok ==> forall i :: 0 <= i < |circuit.vscConverters| ==>
                     data.rows[i] == VscEntry(circuit.vscConverters[i])
    ensures ok ==> forall i, b :: 0 <= i < |circuit.vscConverters| && 0 <= b < |circuit.buses| ==>
                     var elm := circuit.vscConverters[i];
                     data.cVscBus[i, b] == Terminals(busDict[elm.busFrom], busDict[elm.busTo], b)
  {
    var devices := circuit.vscConverters;
    data := new VscData(|devices|, |circuit.buses|);
    ok := true;
    var i := 0;
    while i < |devices|
      invariant 0 <= i <= |devices|
      invariant forall j :: 0 <= j < i ==> Mapped(devices[j].busFrom, devices[j].busTo, busDict)
      invariant forall j :: 0 <= j < i ==> data.rows[j] == VscEntry(devices[j])
      invariant forall j, b :: 0 <= j < |devices| && 0 <= b < |circuit.buses| ==>
                  data.cVscBus[j, b] ==
                  if j < i then Terminals(busDict[devices[j].busFrom], busDict[devices[j].busTo], b) else 0
    {
      var elm := devices[i];
      if !Mapped(elm.busFrom, elm.busTo, busDict) {
        ok := false;
        return;
      }
      var f := busDict[elm.busFrom];
      var t := busDict[elm.busTo];
      data.rows[i] := VscEntry(elm);
      data.cVscBus[i, f] := 1;
      data.cVscBus[i, t] := 1;
      i := i + 1;
    }
  }

  // ---------------------------------------------------------------- DC lines

  datatype DcLineRow = DcLineRow(
    name: string, R: real, tolerance: real, F: int, T: int,
    tempBase: real, tempOper: real, alpha: real)

  /** The row of a DC line between bus indices f and t: its resistance goes
      through the temperature correction and the tolerance band, like a line's. */
  function DcLineEntry(elm: DcLine, f: int, t: int, applyTemperature: bool, mode: ImpedanceMode): DcLineRow {
    DcLineRow(elm.name, CorrectedResistance(elm.R, elm.RCorrected, applyTemperature, mode, elm.tolerance),
              elm.tolerance, f, t, elm.tempBase, elm.tempOper, elm.alpha)
  }

  class DcLinesData {
    const rows: array<DcLineRow>
    const cDcLineBus: array2<int>

    constructor (ndcline: nat, nbus: nat)
      ensures fresh(rows) && fresh(cDcLineBus)
      ensures rows.Length == ndcline && cDcLineBus.Length0 == ndcline && cDcLineBus.Length1 == nbus
      ensures forall i, b :: 0 <= i < ndcline && 0 <= b < nbus ==> cDcLineBus[i, b] == 0
    {
      rows := new DcLineRow[ndcline](_ => DcLineRow("", 0.0, 0.0, 0, 0, 0.0, 0.0, 0.0));
      cDcLineBus := new int[ndcline, nbus]((_, _) => 0);
    }
  }

  method GetDcLineData(circuit: MultiCircuit, busDict: BusDict, applyTemperature: bool, mode: ImpedanceMode)
    returns (data: DcLinesData, ok: bool)
    requires BusIndexMap(busDict, |circuit.buses|)
    ensures fresh(data.rows) && fresh(data.cDcLineBus)
    ensures data.rows.Length == |circuit.dcLines|
    ensures data.cDcLineBus.Length0 == |circuit.dcLines| && data.cDcLineBus.Length1 == |circuit.buses|
    ensures ok <==> forall i :: 0 <= i < |circuit.dcLines| ==>
                      Mapped(circuit.dcLines[i].busFrom, circuit.dcLines[i].busTo, busDict)
    ensures ok ==> forall i :: 0 <= i < |circuit.dcLines| ==>
                     var elm := circuit.dcLines[i];
                     data.rows[i] == DcLineEntry(elm, busDict[elm.busFrom], busDict[elm.busTo], applyTemperature, mode)
    ensures ok ==> forall i, b :: 0 <= i < |circuit.dcLines| && 0 <= b < |circuit.buses| ==>
                     var elm := circuit.dcLines[i];
                     data.cDcLineBus[i, b] == Terminals(busDict[elm.busFrom], busDict[elm.busTo], b)
  {
    var devices := circuit.dcLines;
    data := new DcLinesData(|devices|, |circuit.buses|);
    ok := true;
    var i := 0;
    while i < |devices|
      invariant 0 <= i <= |devices|
      invariant forall j :: 0 <= j < i ==> Mapped(devices[j].busFrom, devices[j].busTo, busDict)
      invariant forall j :: 0 <= j < i ==>
                  data.rows[j] == DcLineEntry(devices[j], busDict[devices[j].busFrom], busDict[devices[j].busTo],
                                              applyTemperature, mode)
      invariant forall j, b :: 0 <= j < |devices| && 0 <= b < |circuit.buses| ==>
                  data.cDcLineBus[j, b] ==
                  if j < i then Terminals(busDict[devices[j].busFrom], busDict[devices[j].busTo], b) else 0
    {
      var elm := devices[i];
      if !Mapped(elm.busFrom, elm.busTo, busDict) {
        ok := false;
        return;
      }
      var f := busDict[elm.busFrom];
      var t := busDict[elm.busTo];
      data.rows[i] := DcLineEntry(elm, f, t, applyTemperature, mode);
      data.cDcLineBus[i, f] := 1;
      data.cDcLineBus[i, t] := 1;
      i := i + 1;
    }
  }
}
