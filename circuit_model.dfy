/** The topological grid model as the compilation reads it: buses and devices
    are immutable values here. Quantities the devices compute themselves
    (the temperature-corrected resistance, the virtual taps, the bus type,
    the HVDC from/to powers) appear as plain fields. */
module CircuitModel {

  datatype Option<T> = None | Some(value: T)

  /** Bus classification (BusMode). Only PV matters to this model; the
      enumeration's remaining members are collapsed into OtherMode. */
  datatype BusMode = PQ | PV | Ref | OtherMode

  /** Impedance tolerance mode (BranchImpedanceMode). */
  datatype ImpedanceMode = Specified | Upper | Lower

  /** Transformer control modes: the two that regulate the "to" voltage, and the rest. */
  datatype TransformerControl = VTo | PowerVTo | OtherTransformerControl(code: nat)

  /** Converter control modes: AC voltage at "to", DC voltage at "from", and the rest. */
  datatype ConverterControl = Type1Vac | Type2Vdc | OtherConverterControl(code: nat)

  /** A bus; `uid` stands for object identity, `busType` for determine_bus_type(). */
  datatype Bus = Bus(uid: nat, name: string, active: bool, busType: BusMode)

  datatype Load = Load(name: string, bus: Bus, active: bool, P: real, Q: real, cost: real)

  datatype StaticGenerator = StaticGenerator(name: string, bus: Bus, active: bool, P: real, Q: real)

  datatype Shunt = Shunt(name: string, bus: Bus, active: bool, G: real, B: real)

  datatype Generator = Generator(
    name: string, bus: Bus, Qmin: real, Qmax: real, isControlled: bool, Snom: real,
    P: real, active: bool, Pf: real, Vset: real,
    enabledDispatch: bool, Pmax: real, Pmin: real, cost: real)

  datatype Battery = Battery(
    name: string, bus: Bus, Qmin: real, Qmax: real, isControlled: bool, Snom: real,
    P: real, active: bool, Pf: real, Vset: real,
    enabledDispatch: bool, Pmax: real, Pmin: real, Enom: real,
    minSoc: real, maxSoc: real, soc0: real,
    dischargeEfficiency: real, chargeEfficiency: real, cost: real)

  datatype Line = Line(
    name: string, busFrom: Bus, busTo: Bus, active: bool, rate: real, cost: real,
    R: real, RCorrected: real, X: real, B: real, tolerance: real)

  datatype TapChanger = TapChanger(tap: int, minTap: int, maxTap: int, incRegUp: real, incRegDown: real)

  datatype Transformer = Transformer(
    name: string, busFrom: Bus, busTo: Bus, active: bool, rate: real, cost: real,
    R: real, X: real, G: real, B: real, tapModule: real, angle: real,
    busToRegulated: bool, tapChanger: TapChanger, vset: real,
    controlMode: TransformerControl, virtualTapFrom: real, virtualTapTo: real)

  datatype Vsc = Vsc(
    name: string, busFrom: Bus, busTo: Bus, active: bool, rate: real, cost: real,
    R1: real, X1: real, G0: real, Beq: real, m: real, theta: real,
    Pset: real, Qset: real, kdp: real, VacSet: real, VdcSet: real,
    controlMode: ConverterControl)

  datatype DcLine = DcLine(
    name: string, busFrom: Bus, busTo: Bus, active: bool, rate: real, cost: real,
    R: real, RCorrected: real, tolerance: real,
    tempBase: real, tempOper: real, alpha: real)

  datatype Hvdc = Hvdc(
    name: string, busFrom: Bus, busTo: Bus, active: bool, rate: real,
    powerFrom: real, powerTo: real, VsetF: real, VsetT: real, lossFactor: real,
    QminF: real, QmaxF: real, QminT: real, QmaxT: real)

  /** The device collections of a MultiCircuit, in enumeration order. */
  datatype MultiCircuit = MultiCircuit(
    buses: seq<Bus>, loads: seq<Load>, staticGenerators: seq<StaticGenerator>,
    shunts: seq<Shunt>, generators: seq<Generator>, batteries: seq<Battery>,
    lines: seq<Line>, transformers2w: seq<Transformer>, vscConverters: seq<Vsc>,
    dcLines: seq<DcLine>, hvdcLines: seq<Hvdc>)

  /** Results of a previous dispatch stage, one entry per device (snapshot). */
  datatype OpfResults = OpfResults(
    loadShedding: seq<real>, generatorPower: seq<real>,
    generatorShedding: seq<real>, batteryPower: seq<real>)

  /** The bus identity -> dense index map built once per compilation. */
  type BusDict = map<Bus, int>

  /** Every index the map hands out addresses one of the `nbus` buses. */
  ghost predicate BusIndexMap(busDict: BusDict, nbus: nat) {
    forall b :: b in busDict ==> 0 <= busDict[b] < nbus
  }

  /** Resistance after the optional temperature correction and the tolerance
      band: the starting value is the corrected one when `applyTemperature`
      is set, and the band scales it by (1 - tol/100) or (1 + tol/100). */
  function CorrectedResistance(R: real, RCorrected: real, applyTemperature: bool,
                               mode: ImpedanceMode, tolerance: real): (r: real)
    ensures var base := if applyTemperature then RCorrected else R;
            && (mode == Specified ==> r == base)
            && (mode == Lower ==> r == base - base * tolerance / 100.0)
            && (mode == Upper ==> r == base + base * tolerance / 100.0)
  {
    var base := if applyTemperature then RCorrected else R;
    match mode
    case Lower => base * (1.0 - tolerance / 100.0)
    case Upper => base * (1.0 + tolerance / 100.0)
    case Specified => base
  }

  /** For a non-negative resistance and tolerance the band is ordered
      Lower <= Specified <= Upper, and symmetric about the nominal value. */
  lemma ToleranceBand(R: real, RCorrected: real, applyTemperature: bool, tolerance: real)
    requires (if applyTemperature then RCorrected else R) >= 0.0 && tolerance >= 0.0
    ensures var lo := CorrectedResistance(R, RCorrected, applyTemperature, Lower, tolerance);
            var mid := CorrectedResistance(R, RCorrected, applyTemperature, Specified, tolerance);
            var hi := CorrectedResistance(R, RCorrected, applyTemperature, Upper, tolerance);
            lo <= mid <= hi && hi - mid == mid - lo
  {
    var base := if applyTemperature then RCorrected else R;
    assert base * tolerance >= 0.0;
  }

  /** R = 0.1 with a 10 % tolerance gives 0.09, 0.1 and 0.11. */
  lemma ToleranceExample()
    ensures CorrectedResistance(0.1, 0.0, false, Lower, 10.0) == 0.09
    ensures CorrectedResistance(0.1, 0.0, false, Specified, 10.0) == 0.1
    ensures CorrectedResistance(0.1, 0.0, false, Upper, 10.0) == 0.11
  {
  }
}
