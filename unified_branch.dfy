/** The stacked branch table: lines, then two-winding transformers, then VSC
    converters, then DC lines, one row per branch, with the "from" and "to"
    incidence matrices, the resistance column and the bus voltage set points
    that regulating transformers and converters impose. */
module UnifiedBranch {
  import opened CircuitModel
  import opened BranchDeviceData

  // ---------------------------------------------------------------- layout

  /** Sizes of the four blocks, in stacking order. */
  datatype BranchCounts = BranchCounts(nline: nat, ntr: nat, nvsc: nat, ndcline: nat) {
    function Total(): nat {
      nline + ntr + nvsc + ndcline
    }
  }

  function CountsOf(circuit: MultiCircuit): BranchCounts {
    BranchCounts(|circuit.lines|, |circuit.transformers2w|, |circuit.vscConverters|, |circuit.dcLines|)
  }

  datatype BranchKind = LineBranch | TransformerBranch | VscBranch | DcLineBranch

  /** Index i of block `kind` sits at row Offset(c, kind) + i. */
  function Offset(c: BranchCounts, kind: BranchKind): nat {
    match kind
    case LineBranch => 0
    case TransformerBranch => c.nline
    case VscBranch => c.nline + c.ntr
    case DcLineBranch => c.nline + c.ntr + c.nvsc
  }

  function Size(c: BranchCounts, kind: BranchKind): nat {
    match kind
    case LineBranch => c.nline
    case TransformerBranch => c.ntr
    case VscBranch => c.nvsc
    case DcLineBranch => c.ndcline
  }

  datatype Slot = Slot(kind: BranchKind, index: nat)

  /** The block and the index within it of branch row b. */
  function Locate(c: BranchCounts, b: nat): (s: Slot)
    requires b < c.Total()
    ensures s.index < Size(c, s.kind) && Offset(c, s.kind) + s.index == b
  {
    if b < c.nline then Slot(LineBranch, b)
    else if b < c.nline + c.ntr then Slot(TransformerBranch, b - c.nline)
    else if b < c.nline + c.ntr + c.nvsc then Slot(VscBranch, b - c.nline - c.ntr)
    else Slot(DcLineBranch, b - c.nline - c.ntr - c.nvsc)
  }

  /** The blocks tile the table without overlap: every device's row lies
      inside the table and is found again at its own block and index. */
  lemma LocateOffset(c: BranchCounts, kind: BranchKind, i: nat)
    requires i < Size(c, kind)
    ensures Offset(c, kind) + i < c.Total()
    ensures Locate(c, Offset(c, kind) + i) == Slot(kind, i)
  {
  }

  // ---------------------------------------------------------------- rows

  /** The control mode column holds transformer and converter modes alike. */
  datatype BranchControl =
    | NoControl
    | TransformerMode(trMode: TransformerControl)
    | ConverterMode(vscMode: ConverterControl)

  datatype BranchRow = BranchRow(
    name: string, active: bool, rate: real, cost: real, F: int, T: int,
    X: real, B: real, G: real, m: real, theta: real, control: BranchControl,
    tapF: real, tapT: real, G0: real, Beq: real, k: real,
    Pset: real, Qset: real, Kdp: real, vfSet: real, vtSet: real)

  /** A row no block has written: zero parameters, unit tap and converter factor. */
  const BlankRow := BranchRow("", false, 0.0, 0.0, 0, 0, 0.0, 0.0, 0.0, 1.0, 0.0, NoControl,
                              1.0, 1.0, 0.0, 0.0, 1.0, 0.0, 0.0, 0.0, 0.0, 0.0)

  /** The columns every block writes; the cost column only in OPF mode. */
  function Common(name: string, active: bool, rate: real, cost: real, f: int, t: int, opf: bool): BranchRow {
    BlankRow.(name := name, active := active, rate := rate, cost := if opf then cost else 0.0, F := f, T := t)
  }

  function LineBranchRow(elm: Line, f: int, t: int, opf: bool): BranchRow {
    Common(elm.name, elm.active, elm.rate, elm.cost, f, t, opf).(X := elm.X, B := elm.B)
  }

  function TransformerBranchRow(elm: Transformer, f: int, t: int, opf: bool): BranchRow {
    Common(elm.name, elm.active, elm.rate, elm.cost, f, t, opf).(
      X := elm.X, G := elm.G, B := elm.B, m := elm.tapModule, theta := elm.angle,
      control := TransformerMode(elm.controlMode), tapF := elm.virtualTapFrom, tapT := elm.virtualTapTo)
  }

  function VscBranchRow(elm: Vsc, f: int, t: int, opf: bool): BranchRow {
    Common(elm.name, elm.active, elm.rate, elm.cost, f, t, opf).(
      X := elm.X1, G0 := elm.G0, Beq := elm.Beq, m := elm.m, k := 1.0, theta := elm.theta,
      Pset := elm.Pset, Qset := elm.Qset, Kdp := elm.kdp, vfSet := elm.VacSet, vtSet := elm.VdcSet,
      control := ConverterMode(elm.controlMode))
  }

  function DcLineBranchRow(elm: DcLine, f: int, t: int, opf: bool): BranchRow {
    Common(elm.name, elm.active, elm.rate, elm.cost, f, t, opf)
  }

  predicate LinesMapped(devs: seq<Line>, busDict: BusDict) {
    forall j :: 0 <= j < |devs| ==> Mapped(devs[j].busFrom, devs[j].busTo, busDict)
  }

  predicate TransformersMapped(devs: seq<Transformer>, busDict: BusDict) {
    forall j :: 0 <= j < |devs| ==> Mapped(devs[j].busFrom, devs[j].busTo, busDict)
  }

  predicate VscsMapped(devs: seq<Vsc>, busDict: BusDict) {
    forall j :: 0 <= j < |devs| ==> Mapped(devs[j].busFrom, devs[j].busTo, busDict)
  }

  predicate DcLinesMapped(devs: seq<DcLine>, busDict: BusDict) {
    forall j :: 0 <= j < |devs| ==> Mapped(devs[j].busFrom, devs[j].busTo, busDict)
  }

  predicate AllBranchesMapped(circuit: MultiCircuit, busDict: BusDict) {
    && LinesMapped(circuit.lines, busDict)
    && TransformersMapped(circuit.transformers2w, busDict)
    && VscsMapped(circuit.vscConverters, busDict)
    && DcLinesMapped(circuit.dcLines, busDict)
  }

  function LineRows(devs: seq<Line>, busDict: BusDict, opf: bool): (rs: seq<BranchRow>)
    requires LinesMapped(devs, busDict)
    ensures |rs| == |devs|
  {
    seq(|devs|, j requires 0 <= j < |devs| =>
      LineBranchRow(devs[j], busDict[devs[j].busFrom], busDict[devs[j].busTo], opf))
  }

  function TransformerRows(devs: seq<Transformer>, busDict: BusDict, opf: bool): (rs: seq<BranchRow>)
    requires TransformersMapped(devs, busDict)
    ensures |rs| == |devs|
  {
    seq(|devs|, j requires 0 <= j < |devs| =>
      TransformerBranchRow(devs[j], busDict[devs[j].busFrom], busDict[devs[j].busTo], opf))
  }

  function VscRows(devs: seq<Vsc>, busDict: BusDict, opf: bool): (rs: seq<BranchRow>)
    requires VscsMapped(devs, busDict)
    ensures |rs| == |devs|
  {
    seq(|devs|, j requires 0 <= j < |devs| =>
      VscBranchRow(devs[j], busDict[devs[j].busFrom], busDict[devs[j].busTo], opf))
  }

  function DcLineRows(devs: seq<DcLine>, busDict: BusDict, opf: bool): (rs: seq<BranchRow>)
    requires DcLinesMapped(devs, busDict)
    ensures |rs| == |devs|
  {
    seq(|devs|, j requires 0 <= j < |devs| =>
      DcLineBranchRow(devs[j], busDict[devs[j].busFrom], busDict[devs[j].busTo], opf))
  }

  /** The whole table, block after block. */
  function BranchRows(circuit: MultiCircuit, busDict: BusDict, opf: bool): (rs: seq<BranchRow>)
    requires AllBranchesMapped(circuit, busDict)
    ensures |rs| == CountsOf(circuit).Total()
  {
    LineRows(circuit.lines, busDict, opf) + TransformerRows(circuit.transformers2w, busDict, opf)
    + VscRows(circuit.vscConverters, busDict, opf) + DcLineRows(circuit.dcLines, busDict, opf)
  }

  /** Row Offset + i of the table is the row of device i of that block, with
      its own terminals: the stacking puts no device in another's place. */
  lemma BranchRowsAt(circuit: MultiCircuit, busDict: BusDict, opf: bool, b: nat)
    requires AllBranchesMapped(circuit, busDict) && b < CountsOf(circuit).Total()
    ensures var s := Locate(CountsOf(circuit), b);
            var row := BranchRows(circuit, busDict, opf)[b];
            match s.kind
            case LineBranch =>
              var elm := circuit.lines[s.index];
              row == LineBranchRow(elm, busDict[elm.busFrom], busDict[elm.busTo], opf)
            case TransformerBranch =>
              var elm := circuit.transformers2w[s.index];
              row == TransformerBranchRow(elm, busDict[elm.busFrom], busDict[elm.busTo], opf)
            case VscBranch =>
              var elm := circuit.vscConverters[s.index];
              row == VscBranchRow(elm, busDict[elm.busFrom], busDict[elm.busTo], opf)
            case DcLineBranch =>
              var elm := circuit.dcLines[s.index];
              row == DcLineBranchRow(elm, busDict[elm.busFrom], busDict[elm.busTo], opf)
  {
    var c := CountsOf(circuit);
    var l := LineRows(circuit.lines, busDict, opf);
    var tr := TransformerRows(circuit.transformers2w, busDict, opf);
    var v := VscRows(circuit.vscConverters, busDict, opf);
    var d := DcLineRows(circuit.dcLines, busDict, opf);
    assert BranchRows(circuit, busDict, opf) == ((l + tr) + v) + d;
    if b < c.nline {
      assert (((l + tr) + v) + d)[b] == l[b];
    } else if b < c.nline + c.ntr {
      assert (((l + tr) + v) + d)[b] == tr[b - c.nline];
    } else if b < c.nline + c.ntr + c.nvsc {
      assert (((l + tr) + v) + d)[b] == v[b - c.nline - c.ntr];
    } else {
      assert (((l + tr) + v) + d)[b] == d[b - c.nline - c.ntr - c.nvsc];
    }
  }

  // ---------------------------------------------------------------- voltage set points

  datatype VoltageWrite = VoltageWrite(bus: int, value: real)

  /** A transformer controlling the "to" voltage sets the "to" bus to its set point. */
  function TransformerWrite(elm: Transformer, busDict: BusDict): Option<VoltageWrite>
    requires Mapped(elm.busFrom, elm.busTo, busDict)
  {
    if elm.controlMode == VTo || elm.controlMode == PowerVTo then Some(VoltageWrite(busDict[elm.busTo], elm.vset))
    else None
  }

  /** A type-1 converter sets its "to" (AC) bus, a type-2 converter its "from" (DC) bus. */
  function VscWrite(elm: Vsc, busDict: BusDict): Option<VoltageWrite>
    requires Mapped(elm.busFrom, elm.busTo, busDict)
  {
    match elm.controlMode
    case Type1Vac => Some(VoltageWrite(busDict[elm.busTo], elm.VacSet))
    case Type2Vdc => Some(VoltageWrite(busDict[elm.busFrom], elm.VdcSet))
    case OtherConverterControl(_) => None
  }

  function TransformerWrites(devs: seq<Transformer>, busDict: BusDict): (ws: seq<Option<VoltageWrite>>)
    requires TransformersMapped(devs, busDict)
    ensures |ws| == |devs|
  {
    seq(|devs|, j requires 0 <= j < |devs| => TransformerWrite(devs[j], busDict))
  }

  function VscWrites(devs: seq<Vsc>, busDict: BusDict): (ws: seq<Option<VoltageWrite>>)
    requires VscsMapped(devs, busDict)
    ensures |ws| == |devs|
  {
    seq(|devs|, j requires 0 <= j < |devs| => VscWrite(devs[j], busDict))
  }

  ghost predicate WritesInRange(ws: seq<Option<VoltageWrite>>, nbus: nat) {
    forall j :: 0 <= j < |ws| && ws[j].Some? ==> 0 <= ws[j].value.bus < nbus
  }

  /** The voltage vector after the writes, in order. */
  function ApplyWrites(v: seq<real>, ws: seq<Option<VoltageWrite>>): (r: seq<real>)
    requires WritesInRange(ws, |v|)
    ensures |r| == |v|
  {
    if ws == [] then v
    else
      var r := ApplyWrites(v, ws[..|ws| - 1]);
      match ws[|ws| - 1]
      case None => r
      case Some(w) => r[w.bus := w.value]
  }

  /** The value of the last write to bus b, or `dflt` when nothing writes it. */
  function LastWrite(ws: seq<Option<VoltageWrite>>, b: int, dflt: real): real {
    if ws == [] then dflt
    else match ws[|ws| - 1]
      case Some(w) => if w.bus == b then w.value else LastWrite(ws[..|ws| - 1], b, dflt)
      case None => LastWrite(ws[..|ws| - 1], b, dflt)
  }

  /** Last writer wins: each bus ends with the set point of the last device
      that regulates it, and keeps its starting value when none does. */
  lemma {:induction false} ApplyWritesIsLastWrite(v: seq<real>, ws: seq<Option<VoltageWrite>>, b: int)
    requires WritesInRange(ws, |v|) && 0 <= b < |v|
    ensures ApplyWrites(v, ws)[b] == LastWrite(ws, b, v[b])
  {
    if ws != [] {
      var n := |ws| - 1;
      assert WritesInRange(ws[..n], |v|);
      ApplyWritesIsLastWrite(v, ws[..n], b);
    }
  }

  /** Applying two lists of writes one after the other is applying their concatenation. */
  lemma {:induction false} ApplyWritesAppend(v: seq<real>, ws1: seq<Option<VoltageWrite>>, ws2: seq<Option<VoltageWrite>>)
    requires WritesInRange(ws1, |v|) && WritesInRange(ws2, |v|)
    ensures WritesInRange(ws1 + ws2, |v|)
    ensures ApplyWrites(ApplyWrites(v, ws1), ws2) == ApplyWrites(v, ws1 + ws2)
    decreases |ws2|
  {
    if ws2 != [] {
      var n := |ws2| - 1;
      assert WritesInRange(ws2[..n], |v|);
      ApplyWritesAppend(v, ws1, ws2[..n]);
      var all := ws1 + ws2;
      assert all[..|all| - 1] == ws1 + ws2[..n];
      assert all[|all| - 1] == ws2[n];
      var mid := ApplyWrites(v, ws1);
      assert ApplyWrites(mid, ws2[..n]) == ApplyWrites(v, ws1 + ws2[..n]);
      match ws2[n]
      case None =>
        assert ApplyWrites(mid, ws2) == ApplyWrites(mid, ws2[..n]);
      case Some(w) =>
        assert ApplyWrites(mid, ws2) == ApplyWrites(mid, ws2[..n])[w.bus := w.value];
    } else {
      assert ws1 + ws2 == ws1;
    }
  }

  // ---------------------------------------------------------------- resistance column

  function LineResistance(elm: Line, applyTemperature: bool, mode: ImpedanceMode): real {
    CorrectedResistance(elm.R, elm.RCorrected, applyTemperature, mode, elm.tolerance)
  }

  function DcLineResistance(elm: DcLine, applyTemperature: bool, mode: ImpedanceMode): real {
    CorrectedResistance(elm.R, elm.RCorrected, applyTemperature, mode, elm.tolerance)
  }

  /** The resistances of a block's devices, in block order. */
  function LineResistances(devs: seq<Line>, applyTemperature: bool, mode: ImpedanceMode): (r: seq<real>)
    ensures |r| == |devs|
  {
    seq(|devs|, j requires 0 <= j < |devs| => LineResistance(devs[j], applyTemperature, mode))
  }

  function TransformerResistances(devs: seq<Transformer>): (r: seq<real>)
    ensures |r| == |devs|
  {
    seq(|devs|, j requires 0 <= j < |devs| => devs[j].R)
  }

  function VscResistances(devs: seq<Vsc>): (r: seq<real>)
    ensures |r| == |devs|
  {
    seq(|devs|, j requires 0 <= j < |devs| => devs[j].R1)
  }

  function DcLineResistances(devs: seq<DcLine>, applyTemperature: bool, mode: ImpedanceMode): (r: seq<real>)
    ensures |r| == |devs|
  {
    seq(|devs|, j requires 0 <= j < |devs| => DcLineResistance(devs[j], applyTemperature, mode))
  }

  /** The column of n copies of x (the containers' initial values). */
  function Uniform(n: nat, x: real): (r: seq<real>)
    ensures |r| == n
  {
    seq(n, _ => x)
  }

  /** `r0` with the entries lo .. lo+|vals|-1 replaced by `vals`. */
  function Overwrite(r0: seq<real>, lo: nat, vals: seq<real>): (r: seq<real>)
    requires lo + |vals| <= |r0|
    ensures |r| == |r0|
  {
    seq(|r0|, b requires 0 <= b < |r0| => if lo <= b < lo + |vals| then vals[b - lo] else r0[b])
  }

  // ---------------------------------------------------------------- block prefixes

  /** `rs`, and `rv` are the rows, and resistances of the first |rs| devices of the block. */
  ghost predicate LinePrefix(rs: seq<BranchRow>, rv: seq<real>, devs: seq<Line>, busDict: BusDict, opf: bool, applyTemperature: bool, mode: ImpedanceMode) {
    |rs| <= |devs| && |rv| == |rs| &&
    forall j :: 0 <= j < |rs| ==>
      Mapped(devs[j].busFrom, devs[j].busTo, busDict) &&
      rs[j] == LineBranchRow(devs[j], busDict[devs[j].busFrom], busDict[devs[j].busTo], opf) &&
      rv[j] == LineResistance(devs[j], applyTemperature, mode)
  }

  lemma LinePrefixNext(rs: seq<BranchRow>, rv: seq<real>, devs: seq<Line>, busDict: BusDict, opf: bool, applyTemperature: bool, mode: ImpedanceMode)
    requires LinePrefix(rs, rv, devs, busDict, opf, applyTemperature, mode) && |rs| < |devs|
    requires Mapped(devs[|rs|].busFrom, devs[|rs|].busTo, busDict)
    ensures var elm := devs[|rs|];
            LinePrefix(rs + [LineBranchRow(elm, busDict[elm.busFrom], busDict[elm.busTo], opf)],
                         rv + [LineResistance(elm, applyTemperature, mode)], devs, busDict, opf, applyTemperature, mode)
  {
  }

  lemma LinePrefixAll(rs: seq<BranchRow>, rv: seq<real>, devs: seq<Line>, busDict: BusDict, opf: bool, applyTemperature: bool, mode: ImpedanceMode)
    requires LinePrefix(rs, rv, devs, busDict, opf, applyTemperature, mode) && |rs| == |devs|
    ensures LinesMapped(devs, busDict)
    ensures rs == LineRows(devs, busDict, opf)
    ensures rv == LineResistances(devs, applyTemperature, mode)
  {
  }

  /** `rs`, `ws` and `rv` are the rows, voltage writes and resistances of the first |rs| devices of the block. */
  ghost predicate TransformerPrefix(rs: seq<BranchRow>, ws: seq<Option<VoltageWrite>>, rv: seq<real>, devs: seq<Transformer>, busDict: BusDict, opf: bool) {
    |rs| <= |devs| && |ws| == |rs| && |rv| == |rs| &&
    forall j :: 0 <= j < |rs| ==>
      Mapped(devs[j].busFrom, devs[j].busTo, busDict) &&
      rs[j] == TransformerBranchRow(devs[j], busDict[devs[j].busFrom], busDict[devs[j].busTo], opf) &&
      rv[j] == devs[j].R &&
      ws[j] == TransformerWrite(devs[j], busDict)
  }

  lemma TransformerPrefixNext(rs: seq<BranchRow>, ws: seq<Option<VoltageWrite>>, rv: seq<real>, devs: seq<Transformer>, busDict: BusDict, opf: bool)
    requires TransformerPrefix(rs, ws, rv, devs, busDict, opf) && |rs| < |devs|
    requires Mapped(devs[|rs|].busFrom, devs[|rs|].busTo, busDict)
    ensures var elm := devs[|rs|];
            TransformerPrefix(rs + [TransformerBranchRow(elm, busDict[elm.busFrom], busDict[elm.busTo], opf)], ws + [TransformerWrite(elm, busDict)],
                         rv + [elm.R], devs, busDict, opf)
  {
  }

  lemma TransformerPrefixAll(rs: seq<BranchRow>, ws: seq<Option<VoltageWrite>>, rv: seq<real>, devs: seq<Transformer>, busDict: BusDict, opf: bool)
    requires TransformerPrefix(rs, ws, rv, devs, busDict, opf) && |rs| == |devs|
    ensures TransformersMapped(devs, busDict)
    ensures rs == TransformerRows(devs, busDict, opf)
    ensures ws == TransformerWrites(devs, busDict)
    ensures rv == TransformerResistances(devs)
  {
  }

  /** `rs`, `ws` and `rv` are the rows, voltage writes and resistances of the first |rs| devices of the block. */
  ghost predicate VscPrefix(rs: seq<BranchRow>, ws: seq<Option<VoltageWrite>>, rv: seq<real>, devs: seq<Vsc>, busDict: BusDict, opf: bool) {
    |rs| <= |devs| && |ws| == |rs| && |rv| == |rs| &&
    forall j :: 0 <= j < |rs| ==>
      Mapped(devs[j].busFrom, devs[j].busTo, busDict) &&
      rs[j] == VscBranchRow(devs[j], busDict[devs[j].busFrom], busDict[devs[j].busTo], opf) &&
      rv[j] == devs[j].R1 &&
      ws[j] == VscWrite(devs[j], busDict)
  }

  lemma VscPrefixNext(rs: seq<BranchRow>, ws: seq<Option<VoltageWrite>>, rv: seq<real>, devs: seq<Vsc>, busDict: BusDict, opf: bool)
    requires VscPrefix(rs, ws, rv, devs, busDict, opf) && |rs| < |devs|
    requires Mapped(devs[|rs|].busFrom, devs[|rs|].busTo, busDict)
    ensures var elm := devs[|rs|];
            VscPrefix(rs + [VscBranchRow(elm, busDict[elm.busFrom], busDict[elm.busTo], opf)], ws + [VscWrite(elm, busDict)],
                         rv + [elm.R1], devs, busDict, opf)
  {
  }

  lemma VscPrefixAll(rs: seq<BranchRow>, ws: seq<Option<VoltageWrite>>, rv: seq<real>, devs: seq<Vsc>, busDict: BusDict, opf: bool)
    requires VscPrefix(rs, ws, rv, devs, busDict, opf) && |rs| == |devs|
    ensures VscsMapped(devs, busDict)
    ensures rs == VscRows(devs, busDict, opf)
    ensures ws == VscWrites(devs, busDict)
    ensures rv == VscResistances(devs)
  {
  }

  /** `rs`, and `rv` are the rows, and resistances of the first |rs| devices of the block. */
  ghost predicate DcLinePrefix(rs: seq<BranchRow>, rv: seq<real>, devs: seq<DcLine>, busDict: BusDict, opf: bool, applyTemperature: bool, mode: ImpedanceMode) {
    |rs| <= |devs| && |rv| == |rs| &&
    forall j :: 0 <= j < |rs| ==>
      Mapped(devs[j].busFrom, devs[j].busTo, busDict) &&
      rs[j] == DcLineBranchRow(devs[j], busDict[devs[j].busFrom], busDict[devs[j].busTo], opf) &&
      rv[j] == DcLineResistance(devs[j], applyTemperature, mode)
  }

  lemma DcLinePrefixNext(rs: seq<BranchRow>, rv: seq<real>, devs: seq<DcLine>, busDict: BusDict, opf: bool, applyTemperature: bool, mode: ImpedanceMode)
    requires DcLinePrefix(rs, rv, devs, busDict, opf, applyTemperature, mode) && |rs| < |devs|
    requires Mapped(devs[|rs|].busFrom, devs[|rs|].busTo, busDict)
    ensures var elm := devs[|rs|];
            DcLinePrefix(rs + [DcLineBranchRow(elm, busDict[elm.busFrom], busDict[elm.busTo], opf)],
                         rv + [DcLineResistance(elm, applyTemperature, mode)], devs, busDict, opf, applyTemperature, mode)
  {
  }

  lemma DcLinePrefixAll(rs: seq<BranchRow>, rv: seq<real>, devs: seq<DcLine>, busDict: BusDict, opf: bool, applyTemperature: bool, mode: ImpedanceMode)
    requires DcLinePrefix(rs, rv, devs, busDict, opf, applyTemperature, mode) && |rs| == |devs|
    ensures DcLinesMapped(devs, busDict)
    ensures rs == DcLineRows(devs, busDict, opf)
    ensures rv == DcLineResistances(devs, applyTemperature, mode)
  {
  }

  // ---------------------------------------------------------------- the container

  class BranchData {
    const rows: array<BranchRow>
    const Cf: array2<int>
    const Ct: array2<int>
    const R: array<real>
    const Vbus: array<real>

    ghost predicate Valid()
      reads this
    {
      && Cf.Length0 == rows.Length && Ct.Length0 == rows.Length && R.Length == rows.Length
      && Cf.Length1 == Vbus.Length && Ct.Length1 == Vbus.Length
      && Cf != Ct && R != Vbus
    }

    constructor (nbr: nat, nbus: nat)
      ensures Valid() && fresh(rows) && fresh(Cf) && fresh(Ct) && fresh(R) && fresh(Vbus)
      ensures rows.Length == nbr && Vbus.Length == nbus
      ensures Stacked([])
      ensures R[..] == Uniform(nbr, 0.0)
      ensures Vbus[..] == Uniform(nbus, 1.0)
    {
      rows := new BranchRow[nbr](_ => BlankRow);
      Cf := new int[nbr, nbus]((_, _) => 0);
      Ct := new int[nbr, nbus]((_, _) => 0);
      R := new real[nbr](_ => 0.0);
      Vbus := new real[nbus](_ => 1.0);
    }

    /** The first |rs| rows hold `rs`; row b of Cf (Ct) is the unit vector at
        the "from" ("to") bus of row b for those rows and zero below them. */
    ghost predicate Stacked(rs: seq<BranchRow>)
      reads this, rows, Cf, Ct
    {
      && |rs| <= rows.Length
      && (forall b :: 0 <= b < |rs| ==> rows[b] == rs[b])
      && (forall b, j :: 0 <= b < Cf.Length0 && 0 <= j < Cf.Length1 ==>
            Cf[b, j] == if b < |rs| && j == rs[b].F then 1 else 0)
      && (forall b, j :: 0 <= b < Ct.Length0 && 0 <= j < Ct.Length1 ==>
            Ct[b, j] == if b < |rs| && j == rs[b].T then 1 else 0)
    }

    /** The voltage vector is `v0` after the writes `ws`. */
    ghost predicate VoltagesAfter(v0: seq<real>, ws: seq<Option<VoltageWrite>>)
      reads Vbus
    {
      |v0| == Vbus.Length && WritesInRange(ws, |v0|) && Vbus[..] == ApplyWrites(v0, ws)
    }

    /** Performs one device's voltage write, if it has one. */
    method Regulate(w: Option<VoltageWrite>, ghost v0: seq<real>, ghost ws: seq<Option<VoltageWrite>>)
      requires VoltagesAfter(v0, ws)
      requires w.Some? ==> 0 <= w.value.bus < Vbus.Length
      modifies Vbus
      ensures VoltagesAfter(v0, ws + [w])
    {
      assert (ws + [w])[..|ws|] == ws;
      if w.Some? {
        Vbus[w.value.bus] := w.value.value;
      }
    }

    /** The resistance column is `r0` with `vals` written from index `lo` on. */
    ghost predicate ResistancesFrom(r0: seq<real>, lo: nat, vals: seq<real>)
      reads R
    {
      && |r0| == R.Length && lo + |vals| <= R.Length
      && forall b :: 0 <= b < R.Length ==> R[b] == if lo <= b < lo + |vals| then vals[b - lo] else r0[b]
    }

    /** Writes the next resistance of a block that starts at index `lo`. */
    method PutResistance(b: nat, x: real, ghost r0: seq<real>, ghost lo: nat, ghost vals: seq<real>)
      requires b == lo + |vals| < R.Length
      requires ResistancesFrom(r0, lo, vals)
      modifies R
      ensures ResistancesFrom(r0, lo, vals + [x])
    {
      R[b] := x;
    }

    /** Stores row ii, the next one after `prior` and `rs`, and its two incidence entries. */
    method Put(ii: nat, row: BranchRow, ghost prior: seq<BranchRow>, ghost rs: seq<BranchRow>)
      requires Valid() && ii == |prior| + |rs| < rows.Length
      requires 0 <= row.F < Vbus.Length && 0 <= row.T < Vbus.Length
      requires Stacked(prior + rs)
      modifies rows, Cf, Ct
      ensures Stacked(prior + (rs + [row]))
    {
      rows[ii] := row;
      Cf[ii, row.F] := 1;
      Ct[ii, row.T] := 1;
      assert (prior + rs) + [row] == prior + (rs + [row]);
    }
  }

  // ---------------------------------------------------------------- the four blocks

  method StackLines(data: BranchData, devs: seq<Line>, busDict: BusDict,
                    applyTemperature: bool, mode: ImpedanceMode, opf: bool)
    returns (ok: bool)
    requires data.Valid() && |devs| <= data.rows.Length && BusIndexMap(busDict, data.Vbus.Length)
    requires data.Stacked([])
    modifies data.rows, data.Cf, data.Ct, data.R
    ensures ok <==> LinesMapped(devs, busDict)
    ensures ok ==> data.Stacked(LineRows(devs, busDict, opf))
    ensures ok ==> data.R[..] == Overwrite(old(data.R[..]), 0, LineResistances(devs, applyTemperature, mode))
  {
    ghost var rs: seq<BranchRow> := [];
    ghost var rv: seq<real> := [];
    ghost var r0 := data.R[..];
    ok := true;
    var i := 0;
    while i < |devs|
      invariant 0 <= i <= |devs| && |rs| == i && |rv| == i
      invariant LinePrefix(rs, rv, devs, busDict, opf, applyTemperature, mode)
      invariant data.Stacked([] + rs)
      invariant data.ResistancesFrom(r0, 0, rv)
    {
      var elm := devs[i];
      if !Mapped(elm.busFrom, elm.busTo, busDict) {
        ok := false;
        return;
      }
      var f := busDict[elm.busFrom];
      var t := busDict[elm.busTo];
      var row := LineBranchRow(elm, f, t, opf);
      data.Put(i, row, [], rs);
      data.PutResistance(i, LineResistance(elm, applyTemperature, mode), r0, 0, rv);
      LinePrefixNext(rs, rv, devs, busDict, opf, applyTemperature, mode);
      rv := rv + [LineResistance(elm, applyTemperature, mode)];
      rs := rs + [row];
      i := i + 1;
    }
    LinePrefixAll(rs, rv, devs, busDict, opf, applyTemperature, mode);
    assert data.R[..] == Overwrite(r0, 0, rv);
    assert [] + rs == rs;
  }

  method StackTransformers(data: BranchData, devs: seq<Transformer>, busDict: BusDict, opf: bool,
                           offset: nat, ghost prior: seq<BranchRow>)
    returns (ok: bool)
    requires data.Valid() && offset == |prior| && offset + |devs| <= data.rows.Length
    requires BusIndexMap(busDict, data.Vbus.Length)
    requires data.Stacked(prior)
    modifies data.rows, data.Cf, data.Ct, data.R, data.Vbus
    ensures ok <==> TransformersMapped(devs, busDict)
    ensures ok ==> data.Stacked(prior + TransformerRows(devs, busDict, opf))
    ensures ok ==> data.R[..] == Overwrite(old(data.R[..]), offset, TransformerResistances(devs))
    ensures ok ==> WritesInRange(TransformerWrites(devs, busDict), data.Vbus.Length)
    ensures ok ==> data.Vbus[..] == ApplyWrites(old(data.Vbus[..]), TransformerWrites(devs, busDict))
  {
    ghost var rs: seq<BranchRow> := [];
    ghost var rv: seq<real> := [];
    ghost var r0 := data.R[..];
    ghost var ws: seq<Option<VoltageWrite>> := [];
    ghost var v0 := data.Vbus[..];
    ok := true;
    var i := 0;
    while i < |devs|
      invariant 0 <= i <= |devs| && |rs| == i && |ws| == i && |rv| == i
      invariant TransformerPrefix(rs, ws, rv, devs, busDict, opf)
      invariant data.Stacked(prior + rs)
      invariant data.ResistancesFrom(r0, offset, rv)
      invariant data.VoltagesAfter(v0, ws)
    {
      var ii := i + offset;
      var elm := devs[i];
      if !Mapped(elm.busFrom, elm.busTo, busDict) {
        ok := false;
        return;
      }
      var f := busDict[elm.busFrom];
      var t := busDict[elm.busTo];
      var row := TransformerBranchRow(elm, f, t, opf);
      data.Put(ii, row, prior, rs);
      data.PutResistance(ii, elm.R, r0, offset, rv);
      var w := TransformerWrite(elm, busDict);
      data.Regulate(w, v0, ws);
      TransformerPrefixNext(rs, ws, rv, devs, busDict, opf);
      rv := rv + [elm.R];
      rs := rs + [row];
      ws := ws + [w];
      i := i + 1;
    }
    TransformerPrefixAll(rs, ws, rv, devs, busDict, opf);
    assert data.R[..] == Overwrite(r0, offset, rv);
  }

  method StackVscs(data: BranchData, devs: seq<Vsc>, busDict: BusDict, opf: bool,
                   offset: nat, ghost prior: seq<BranchRow>)
    returns (ok: bool)
    requires data.Valid() && offset == |prior| && offset + |devs| <= data.rows.Length
    requires BusIndexMap(busDict, data.Vbus.Length)
    requires data.Stacked(prior)
    modifies data.rows, data.Cf, data.Ct, data.R, data.Vbus
    ensures ok <==> VscsMapped(devs, busDict)
    ensures ok ==> data.Stacked(prior + VscRows(devs, busDict, opf))
    ensures ok ==> data.R[..] == Overwrite(old(data.R[..]), offset, VscResistances(devs))
    ensures ok ==> WritesInRange(VscWrites(devs, busDict), data.Vbus.Length)
    ensures ok ==> data.Vbus[..] == ApplyWrites(old(data.Vbus[..]), VscWrites(devs, busDict))
  {
    ghost var rs: seq<BranchRow> := [];
    ghost var rv: seq<real> := [];
    ghost var r0 := data.R[..];
    ghost var ws: seq<Option<VoltageWrite>> := [];
    ghost var v0 := data.Vbus[..];
    ok := true;
    var i := 0;
    while i < |devs|
      invariant 0 <= i <= |devs| && |rs| == i && |ws| == i && |rv| == i
      invariant VscPrefix(rs, ws, rv, devs, busDict, opf)
      invariant data.Stacked(prior + rs)
      invariant data.ResistancesFrom(r0, offset, rv)
      invariant data.VoltagesAfter(v0, ws)
    {
      var ii := i + offset;
      var elm := devs[i];
      if !Mapped(elm.busFrom, elm.busTo, busDict) {
        ok := false;
        return;
      }
      var f := busDict[elm.busFrom];
      var t := busDict[elm.busTo];
      var row := VscBranchRow(elm, f, t, opf);
      data.Put(ii, row, prior, rs);
      data.PutResistance(ii, elm.R1, r0, offset, rv);
      var w := VscWrite(elm, busDict);
      data.Regulate(w, v0, ws);
      VscPrefixNext(rs, ws, rv, devs, busDict, opf);
      rv := rv + [elm.R1];
      rs := rs + [row];
      ws := ws + [w];
      i := i + 1;
    }
    VscPrefixAll(rs, ws, rv, devs, busDict, opf);
    assert data.R[..] == Overwrite(r0, offset, rv);
  }

  /** The DC-line block stores each line's resistance at its index i within
      the block, not at its table row offset + i. */
  method StackDcLines(data: BranchData, devs: seq<DcLine>, busDict: BusDict,
                      applyTemperature: bool, mode: ImpedanceMode, opf: bool,
                      offset: nat, ghost prior: seq<BranchRow>)
    returns (ok: bool)
    requires data.Valid() && offset == |prior| && offset + |devs| <= data.rows.Length
    requires BusIndexMap(busDict, data.Vbus.Length)
    requires data.Stacked(prior)
    modifies data.rows, data.Cf, data.Ct, data.R
    ensures ok <==> DcLinesMapped(devs, busDict)
    ensures ok ==> data.Stacked(prior + DcLineRows(devs, busDict, opf))
    ensures ok ==> data.R[..] == Overwrite(old(data.R[..]), 0, DcLineResistances(devs, applyTemperature, mode))
  {
    ghost var rs: seq<BranchRow> := [];
    ghost var rv: seq<real> := [];
    ghost var r0 := data.R[..];
    ok := true;
    var i := 0;
    while i < |devs|
      invariant 0 <= i <= |devs| && |rs| == i && |rv| == i
      invariant DcLinePrefix(rs, rv, devs, busDict, opf, applyTemperature, mode)
      invariant data.Stacked(prior + rs)
      invariant data.ResistancesFrom(r0, 0, rv)
    {
      var ii := i + offset;
      var elm := devs[i];
      if !Mapped(elm.busFrom, elm.busTo, busDict) {
        ok := false;
        return;
      }
      var f := busDict[elm.busFrom];
      var t := busDict[elm.busTo];
      var row := DcLineBranchRow(elm, f, t, opf);
      data.Put(ii, row, prior, rs);
      data.PutResistance(i, DcLineResistance(elm, applyTemperature, mode), r0, 0, rv);
      DcLinePrefixNext(rs, rv, devs, busDict, opf, applyTemperature, mode);
      rv := rv + [DcLineResistance(elm, applyTemperature, mode)];
      rs := rs + [row];
      i := i + 1;
    }
    DcLinePrefixAll(rs, rv, devs, busDict, opf, applyTemperature, mode);
    assert data.R[..] == Overwrite(r0, 0, rv);
  }

  // ---------------------------------------------------------------- the whole table

  /** The voltage writes of the transformer block followed by those of the converter block. */
  function BranchVoltageWrites(circuit: MultiCircuit, busDict: BusDict): (ws: seq<Option<VoltageWrite>>)
    requires AllBranchesMapped(circuit, busDict)
  {
    TransformerWrites(circuit.transformers2w, busDict) + VscWrites(circuit.vscConverters, busDict)
  }

  /** The resistance the four blocks leave in row b: each line, transformer
      and converter row holds its device's resistance, except that the
      DC-line block overwrites rows 0 .. ndcline-1 with the DC-line
      resistances, and the DC-line rows themselves keep the initial zero
      unless overwritten that way. */
  function RowResistanceAsWritten(circuit: MultiCircuit, applyTemperature: bool, mode: ImpedanceMode, b: nat): real
    requires b < CountsOf(circuit).Total()
  {
    var c := CountsOf(circuit);
    if b < c.ndcline then DcLineResistance(circuit.dcLines[b], applyTemperature, mode)
    else
      var s := Locate(c, b);
      match s.kind
      case LineBranch => LineResistance(circuit.lines[s.index], applyTemperature, mode)
      case TransformerBranch => circuit.transformers2w[s.index].R
      case VscBranch => circuit.vscConverters[s.index].R1
      case DcLineBranch => 0.0
  }

  /** The whole resistance column the compilation leaves behind. */
  function ResistanceAsWritten(circuit: MultiCircuit, applyTemperature: bool, mode: ImpedanceMode): (r: seq<real>)
    ensures |r| == CountsOf(circuit).Total()
    ensures forall b :: 0 <= b < |r| ==> r[b] == RowResistanceAsWritten(circuit, applyTemperature, mode, b)
  {
    seq(CountsOf(circuit).Total(), b requires 0 <= b < CountsOf(circuit).Total() =>
      RowResistanceAsWritten(circuit, applyTemperature, mode, b))
  }

  /** The first half of the compilation: the line block, then the transformer block. */
  method StackLinesAndTransformers(data: BranchData, circuit: MultiCircuit, busDict: BusDict,
                                   applyTemperature: bool, mode: ImpedanceMode, opf: bool)
    returns (ok: bool)
    requires data.Valid() && data.rows.Length == CountsOf(circuit).Total()
    requires BusIndexMap(busDict, data.Vbus.Length)
    requires data.Stacked([])
    modifies data.rows, data.Cf, data.Ct, data.R, data.Vbus
    ensures ok <==> LinesMapped(circuit.lines, busDict) && TransformersMapped(circuit.transformers2w, busDict)
    ensures ok ==> data.Stacked(LineRows(circuit.lines, busDict, opf) + TransformerRows(circuit.transformers2w, busDict, opf))
    ensures ok ==> data.R[..] == Overwrite(Overwrite(old(data.R[..]), 0, LineResistances(circuit.lines, applyTemperature, mode)),
                                           |circuit.lines|, TransformerResistances(circuit.transformers2w))
    ensures ok ==> WritesInRange(TransformerWrites(circuit.transformers2w, busDict), data.Vbus.Length)
    ensures ok ==> data.Vbus[..] == ApplyWrites(old(data.Vbus[..]), TransformerWrites(circuit.transformers2w, busDict))
  {
    ok := StackLines(data, circuit.lines, busDict, applyTemperature, mode, opf);
    if !ok {
      return;
    }
    ok := StackTransformers(data, circuit.transformers2w, busDict, opf, |circuit.lines|,
                            LineRows(circuit.lines, busDict, opf));
  }

  /** The second half of the compilation: the converter block, then the DC-line block. */
  method StackVscsAndDcLines(data: BranchData, circuit: MultiCircuit, busDict: BusDict,
                             applyTemperature: bool, mode: ImpedanceMode, opf: bool, ghost prior: seq<BranchRow>)
    returns (ok: bool)
    requires data.Valid() && data.rows.Length == CountsOf(circuit).Total()
    requires |prior| == |circuit.lines| + |circuit.transformers2w|
    requires BusIndexMap(busDict, data.Vbus.Length)
    requires data.Stacked(prior)
    modifies data.rows, data.Cf, data.Ct, data.R, data.Vbus
    ensures ok <==> VscsMapped(circuit.vscConverters, busDict) && DcLinesMapped(circuit.dcLines, busDict)
    ensures ok ==> data.Stacked(prior + VscRows(circuit.vscConverters, busDict, opf) + DcLineRows(circuit.dcLines, busDict, opf))
    ensures ok ==> data.R[..] == Overwrite(Overwrite(old(data.R[..]), |prior|, VscResistances(circuit.vscConverters)),
                                           0, DcLineResistances(circuit.dcLines, applyTemperature, mode))
    ensures ok ==> WritesInRange(VscWrites(circuit.vscConverters, busDict), data.Vbus.Length)
    ensures ok ==> data.Vbus[..] == ApplyWrites(old(data.Vbus[..]), VscWrites(circuit.vscConverters, busDict))
  {
    ok := StackVscs(data, circuit.vscConverters, busDict, opf, |circuit.lines| + |circuit.transformers2w|, prior);
    if !ok {
      return;
    }
    ok := StackDcLines(data, circuit.dcLines, busDict, applyTemperature, mode, opf,
                       |circuit.lines| + |circuit.transformers2w| + |circuit.vscConverters|, prior + VscRows(circuit.vscConverters, busDict, opf));
  }

  /** Compiles the stacked branch table; `ok` is false when a terminal of
      some branch has no bus index. */
  method GetBranchData(circuit: MultiCircuit, busDict: BusDict, applyTemperature: bool,
                       mode: ImpedanceMode, opf: bool)
    returns (data: BranchData, ok: bool)
    requires BusIndexMap(busDict, |circuit.buses|)
    ensures data.Valid() && fresh(data.rows) && fresh(data.Cf) && fresh(data.Ct) && fresh(data.R) && fresh(data.Vbus)
    ensures data.rows.Length == CountsOf(circuit).Total() && data.Vbus.Length == |circuit.buses|
    ensures ok <==> AllBranchesMapped(circuit, busDict)
    ensures ok ==> data.Stacked(BranchRows(circuit, busDict, opf))
    ensures ok ==> data.R[..] == ResistanceAsWritten(circuit, applyTemperature, mode)
    ensures ok ==> WritesInRange(BranchVoltageWrites(circuit, busDict), |circuit.buses|)
    ensures ok ==> data.Vbus[..] == ApplyWrites(Uniform(|circuit.buses|, 1.0), BranchVoltageWrites(circuit, busDict))
  {
    data := new BranchData(CountsOf(circuit).Total(), |circuit.buses|);
    ghost var v0 := data.Vbus[..];
    ghost var r0 := data.R[..];
    ok := StackLinesAndTransformers(data, circuit, busDict, applyTemperature, mode, opf);
    if !ok {
      return;
    }
    ghost var v1 := data.Vbus[..];
    ghost var r2 := data.R[..];
    ok := StackVscsAndDcLines(data, circuit, busDict, applyTemperature, mode, opf,
                              LineRows(circuit.lines, busDict, opf) + TransformerRows(circuit.transformers2w, busDict, opf));
    if !ok {
      return;
    }
    ApplyWritesAppend(v0, TransformerWrites(circuit.transformers2w, busDict), VscWrites(circuit.vscConverters, busDict));
    ResistanceChain(circuit, applyTemperature, mode, r0, r2, data.R[..]);
  }

  /** The four blocks' resistance writes, applied to the zero column in program order. */
  function ResistanceStages(circuit: MultiCircuit, applyTemperature: bool, mode: ImpedanceMode): (r: seq<real>)
    ensures |r| == CountsOf(circuit).Total()
  {
    var c := CountsOf(circuit);
    var r1 := Overwrite(Uniform(c.Total(), 0.0), 0, LineResistances(circuit.lines, applyTemperature, mode));
    var r2 := Overwrite(r1, c.nline, TransformerResistances(circuit.transformers2w));
    var r3 := Overwrite(r2, c.nline + c.ntr, VscResistances(circuit.vscConverters));
    Overwrite(r3, 0, DcLineResistances(circuit.dcLines, applyTemperature, mode))
  }

  /** Row b of ResistanceStages, read off the stage that wrote it last. */
  lemma ResistanceStagesCases(circuit: MultiCircuit, applyTemperature: bool, mode: ImpedanceMode, b: nat)
    requires b < CountsOf(circuit).Total()
    ensures var c := CountsOf(circuit);
            var r := ResistanceStages(circuit, applyTemperature, mode);
            && (b < c.ndcline ==> r[b] == DcLineResistance(circuit.dcLines[b], applyTemperature, mode))
            && (c.ndcline <= b < c.nline ==> r[b] == LineResistance(circuit.lines[b], applyTemperature, mode))
            && (c.ndcline <= b && c.nline <= b < c.nline + c.ntr ==> r[b] == circuit.transformers2w[b - c.nline].R)
            && (c.ndcline <= b && c.nline + c.ntr <= b < c.nline + c.ntr + c.nvsc ==>
                  r[b] == circuit.vscConverters[b - (c.nline + c.ntr)].R1)
            && (c.ndcline <= b && c.nline + c.ntr + c.nvsc <= b ==> r[b] == 0.0)
  {
  }

  lemma ResistanceStagesAt(circuit: MultiCircuit, applyTemperature: bool, mode: ImpedanceMode, b: nat)
    requires b < CountsOf(circuit).Total()
    ensures ResistanceStages(circuit, applyTemperature, mode)[b] == RowResistanceAsWritten(circuit, applyTemperature, mode, b)
  {
    ResistanceStagesCases(circuit, applyTemperature, mode, b);
  }

  /** The resistance column before, between and after the two halves ends in ResistanceAsWritten. */
  lemma ResistanceChain(circuit: MultiCircuit, applyTemperature: bool, mode: ImpedanceMode,
                        r0: seq<real>, r2: seq<real>, r4: seq<real>)
    requires var c := CountsOf(circuit);
             && r0 == Uniform(c.Total(), 0.0)
             && r2 == Overwrite(Overwrite(r0, 0, LineResistances(circuit.lines, applyTemperature, mode)),
                                c.nline, TransformerResistances(circuit.transformers2w))
             && r4 == Overwrite(Overwrite(r2, c.nline + c.ntr, VscResistances(circuit.vscConverters)),
                                0, DcLineResistances(circuit.dcLines, applyTemperature, mode))
    ensures r4 == ResistanceAsWritten(circuit, applyTemperature, mode)
  {
    ResistanceStagesAsWritten(circuit, applyTemperature, mode);
  }

  /** The four blocks' resistance writes compose to ResistanceAsWritten. */
  lemma ResistanceStagesAsWritten(circuit: MultiCircuit, applyTemperature: bool, mode: ImpedanceMode)
    ensures ResistanceStages(circuit, applyTemperature, mode) == ResistanceAsWritten(circuit, applyTemperature, mode)
  {
    forall b | 0 <= b < CountsOf(circuit).Total()
      ensures ResistanceStages(circuit, applyTemperature, mode)[b] == ResistanceAsWritten(circuit, applyTemperature, mode)[b]
    {
      ResistanceStagesAt(circuit, applyTemperature, mode, b);
    }
  }

  // ---------------------------------------------------------------- consequences

  /** Two controllers regulating the same bus: the later write (here the
      converter's, after the transformer's) is the one left in Vbus, and
      a device without a voltage control leaves the column alone. */
  lemma LastWriterWinsExample()
    ensures ApplyWrites([1.0, 1.0], [Some(VoltageWrite(1, 1.02)), None, Some(VoltageWrite(1, 1.05))]) == [1.0, 1.05]
  {
    var ws := [Some(VoltageWrite(1, 1.02)), None, Some(VoltageWrite(1, 1.05))];
    assert ws[..2][..1][..0] == [];
    assert ApplyWrites([1.0, 1.0], ws[..1]) == [1.0, 1.02];
  }

  /** With one line (R = 0.1) and one DC line (R = 0.2), the DC line's
      resistance lands in the line's row 0 and the DC line's own row 1
      keeps its initial zero. */
  lemma DcLineResistanceMisplacedExample()
    ensures |ResistanceAsWritten(LineAndDcLine(), false, Specified)| == 2
    ensures ResistanceAsWritten(LineAndDcLine(), false, Specified)[0] == 0.2
    ensures ResistanceAsWritten(LineAndDcLine(), false, Specified)[1] == 0.0
  {
    var circuit := LineAndDcLine();
    var r := ResistanceAsWritten(circuit, false, Specified);
    assert CountsOf(circuit) == BranchCounts(1, 0, 0, 1);
    assert r[0] == RowResistanceAsWritten(circuit, false, Specified, 0) == 0.2;
    assert r[1] == RowResistanceAsWritten(circuit, false, Specified, 1) == 0.0;
  }

  /** One bus carrying one line of resistance 0.1 and one DC line of resistance 0.2. */
  function LineAndDcLine(): MultiCircuit {
    var bus := Bus(0, "b0", true, PQ);
    var line := Line("l0", bus, bus, true, 1.0, 0.0, 0.1, 0.1, 0.0, 0.0, 0.0);
    var dc := DcLine("d0", bus, bus, true, 1.0, 0.0, 0.2, 0.2, 0.0, 20.0, 20.0, 0.0);
    MultiCircuit([bus], [], [], [], [], [], [line], [], [], [dc], [])
  }
}
