/** The bus builder and the injection-device builders of the compilation:
    each walks its device list in order, stores the device's parameters at
    its enumeration index k and sets the single 1 of column k of the
    bus-device incidence matrix, at the device's bus. */
module InjectionData {
  import opened ComplexNumbers
  import opened CircuitModel
  import opened CompilationContext

  // ---------------------------------------------------------------- buses

  datatype BusRow = BusRow(name: string, active: bool, busType: BusMode)

  class BusData {
    const rows: array<BusRow>

    constructor (nbus: nat)
      ensures fresh(rows) && rows.Length == nbus
    {
      rows := new BusRow[nbus](_ => BusRow("", false, PQ));
    }
  }

  /** Copies name, active flag and classified type of every bus, in order. */
  method GetBusData(circuit: MultiCircuit) returns (data: BusData)
    ensures fresh(data.rows) && data.rows.Length == |circuit.buses|
    ensures forall i :: 0 <= i < |circuit.buses| ==>
              data.rows[i] == BusRow(circuit.buses[i].name, circuit.buses[i].active, circuit.buses[i].busType)
  {
    data := new BusData(|circuit.buses|);
    for i := 0 to |circuit.buses|
      invariant forall j :: 0 <= j < i ==>
                  data.rows[j] == BusRow(circuit.buses[j].name, circuit.buses[j].active, circuit.buses[j].busType)
    {
      var bus := circuit.buses[i];
      data.rows[i] := BusRow(bus.name, bus.active, bus.busType);
    }
  }

  // ---------------------------------------------------------------- loads

  datatype LoadRow = LoadRow(name: string, active: bool, s: Complex, cost: real)

  /** The row of load k: P + jQ, less the prior stage's shedding of load k when
      prior results are given; the cost column is only filled in OPF mode. */
  function LoadEntry(elm: Load, k: nat, opfResults: Option<OpfResults>, opf: bool): LoadRow
    requires opfResults.Some? ==> k < |opfResults.value.loadShedding|
  {
    var s := Complex(elm.P, elm.Q);
    LoadRow(elm.name, elm.active,
            if opfResults.Some? then Sub(s, FromReal(opfResults.value.loadShedding[k])) else s,
            if opf then elm.cost else 0.0)
  }

  class LoadData {
    const rows: array<LoadRow>
    const cBusLoad: array2<int>

    constructor (nload: nat, nbus: nat)
      ensures fresh(rows) && fresh(cBusLoad)
      ensures rows.Length == nload && cBusLoad.Length0 == nbus && cBusLoad.Length1 == nload
      ensures forall i, k :: 0 <= i < nbus && 0 <= k < nload ==> cBusLoad[i, k] == 0
    {
      rows := new LoadRow[nload](_ => LoadRow("", false, Zero, 0.0));
      cBusLoad := new int[nbus, nload]((_, _) => 0);
    }
  }

  method GetLoadData(circuit: MultiCircuit, busDict: BusDict, opfResults: Option<OpfResults>, opf: bool)
    returns (data: LoadData, ok: bool)
    requires BusIndexMap(busDict, |circuit.buses|)
    ensures fresh(data.rows) && fresh(data.cBusLoad)
    ensures data.rows.Length == |circuit.loads|
    ensures data.cBusLoad.Length0 == |circuit.buses| && data.cBusLoad.Length1 == |circuit.loads|
    ensures ok <==> && (forall k :: 0 <= k < |circuit.loads| ==> circuit.loads[k].bus in busDict)
                    && (opfResults.Some? ==> |circuit.loads| <= |opfResults.value.loadShedding|)
    ensures ok ==> forall k :: 0 <= k < |circuit.loads| ==>
                     data.rows[k] == LoadEntry(circuit.loads[k], k, opfResults, opf)
    ensures ok ==> forall i, k :: 0 <= i < |circuit.buses| && 0 <= k < |circuit.loads| ==>
                     data.cBusLoad[i, k] == if i == busDict[circuit.loads[k].bus] then 1 else 0
  {
    var devices := circuit.loads;
    data := new LoadData(|devices|, |circuit.buses|);
    ok := true;
    var k := 0;
    while k < |devices|
      invariant 0 <= k <= |devices|
      invariant forall j :: 0 <= j < k ==> devices[j].bus in busDict
      invariant opfResults.Some? ==> k <= |opfResults.value.loadShedding|
      invariant forall j :: 0 <= j < k ==> data.rows[j] == LoadEntry(devices[j], j, opfResults, opf)
      invariant forall i, j :: 0 <= i < |circuit.buses| && 0 <= j < |devices| ==>
                  data.cBusLoad[i, j] == if j < k && i == busDict[devices[j].bus] then 1 else 0
    {
      var elm := devices[k];
      if elm.bus !in busDict || (opfResults.Some? && k >= |opfResults.value.loadShedding|) {
        ok := false;
        return;
      }
      var i := busDict[elm.bus];
      data.rows[k] := LoadEntry(elm, k, opfResults, opf);
      data.cBusLoad[i, k] := 1;
      k := k + 1;
    }
  }

  // ---------------------------------------------------------------- static generators

  datatype StaticGeneratorRow = StaticGeneratorRow(name: string, active: bool, s: Complex)

  class StaticGeneratorData {
    const rows: array<StaticGeneratorRow>
    const cBusStaticGenerator: array2<int>

    constructor (nstagen: nat, nbus: nat)
      ensures fresh(rows) && fresh(cBusStaticGenerator)
      ensures rows.Length == nstagen
      ensures cBusStaticGenerator.Length0 == nbus && cBusStaticGenerator.Length1 == nstagen
      ensures forall i, k :: 0 <= i < nbus && 0 <= k < nstagen ==> cBusStaticGenerator[i, k] == 0
    {
      rows := new StaticGeneratorRow[nstagen](_ => StaticGeneratorRow("", false, Zero));
      cBusStaticGenerator := new int[nbus, nstagen]((_, _) => 0);
    }
  }

  method GetStaticGeneratorData(circuit: MultiCircuit, busDict: BusDict)
    returns (data: StaticGeneratorData, ok: bool)
    requires BusIndexMap(busDict, |circuit.buses|)
    ensures fresh(data.rows) && fresh(data.cBusStaticGenerator)
    ensures data.rows.Length == |circuit.staticGenerators|
    ensures data.cBusStaticGenerator.Length0 == |circuit.buses|
    ensures data.cBusStaticGenerator.Length1 == |circuit.staticGenerators|
    ensures ok <==> forall k :: 0 <= k < |circuit.staticGenerators| ==> circuit.staticGenerators[k].bus in busDict
    ensures ok ==> forall k :: 0 <= k < |circuit.staticGenerators| ==>
                     var elm := circuit.staticGenerators[k];
                     data.rows[k] == StaticGeneratorRow(elm.name, elm.active, Complex(elm.P, elm.Q))
    ensures ok ==> forall i, k :: 0 <= i < |circuit.buses| && 0 <= k < |circuit.staticGenerators| ==>
                     data.cBusStaticGenerator[i, k] == if i == busDict[circuit.staticGenerators[k].bus] then 1 else 0
  {
    var devices := circuit.staticGenerators;
    data := new StaticGeneratorData(|devices|, |circuit.buses|);
    ok := true;
    var k := 0;
    while k < |devices|
      invariant 0 <= k <= |devices|
      invariant forall j :: 0 <= j < k ==> devices[j].bus in busDict
      invariant forall j :: 0 <= j < k ==>
                  data.rows[j] == StaticGeneratorRow(devices[j].name, devices[j].active, Complex(devices[j].P, devices[j].Q))
      invariant forall i, j :: 0 <= i < |circuit.buses| && 0 <= j < |devices| ==>
                  data.cBusStaticGenerator[i, j] == if j < k && i == busDict[devices[j].bus] then 1 else 0
    {
      var elm := devices[k];
      if elm.bus !in busDict {
        ok := false;
        return;
      }
      var i := busDict[elm.bus];
      data.rows[k] := StaticGeneratorRow(elm.name, elm.active, Complex(elm.P, elm.Q));
      data.cBusStaticGenerator[i, k] := 1;
      k := k + 1;
    }
  }

  // ---------------------------------------------------------------- shunts

  datatype ShuntRow = ShuntRow(name: string, active: bool, admittance: Complex)

  class ShuntData {
    const rows: array<ShuntRow>
    const cBusShunt: array2<int>

    constructor (nshunt: nat, nbus: nat)
      ensures fresh(rows) && fresh(cBusShunt)
      ensures rows.Length == nshunt && cBusShunt.Length0 == nbus && cBusShunt.Length1 == nshunt
      ensures forall i, k :: 0 <= i < nbus && 0 <= k < nshunt ==> cBusShunt[i, k] == 0
    {
      rows := new ShuntRow[nshunt](_ => ShuntRow("", false, Zero));
      cBusShunt := new int[nbus, nshunt]((_, _) => 0);
    }
  }

  method GetShuntData(circuit: MultiCircuit, busDict: BusDict)
    returns (data: ShuntData, ok: bool)
    requires BusIndexMap(busDict, |circuit.buses|)
    ensures fresh(data.rows) && fresh(data.cBusShunt)
    ensures data.rows.Length == |circuit.shunts|
    ensures data.cBusShunt.Length0 == |circuit.buses| && data.cBusShunt.Length1 == |circuit.shunts|
    ensures ok <==> forall k :: 0 <= k < |circuit.shunts| ==> circuit.shunts[k].bus in busDict
    ensures ok ==> forall k :: 0 <= k < |circuit.shunts| ==>
                     var elm := circuit.shunts[k];
                     data.rows[k] == ShuntRow(elm.name, elm.active, Complex(elm.G, elm.B))
    ensures ok ==> forall i, k :: 0 <= i < |circuit.buses| && 0 <= k < |circuit.shunts| ==>
                     data.cBusShunt[i, k] == if i == busDict[circuit.shunts[k].bus] then 1 else 0
  {
    var devices := circuit.shunts;
    data := new ShuntData(|devices|, |circuit.buses|);
    ok := true;
    var k := 0;
    while k < |devices|
      invariant 0 <= k <= |devices|
      invariant forall j :: 0 <= j < k ==> devices[j].bus in busDict
      invariant forall j :: 0 <= j < k ==>
                  data.rows[j] == ShuntRow(devices[j].name, devices[j].active, Complex(devices[j].G, devices[j].B))
      invariant forall i, j :: 0 <= i < |circuit.buses| && 0 <= j < |devices| ==>
                  data.cBusShunt[i, j] == if j < k && i == busDict[devices[j].bus] then 1 else 0
    {
      var elm := devices[k];
      if elm.bus !in busDict {
        ok := false;
        return;
      }
      var i := busDict[elm.bus];
      data.rows[k] := ShuntRow(elm.name, elm.active, Complex(elm.G, elm.B));
      data.cBusShunt[i, k] := 1;
      k := k + 1;
    }
  }

  // ---------------------------------------------------------------- generators

  datatype GeneratorRow = GeneratorRow(
    name: string, qmin: real, qmax: real, controllable: bool, installedP: real,
    p: real, active: bool, pf: real, v: real,
    dispatchable: bool, pmax: real, pmin: real, cost: real)

  /** The row of generator k: its active power is the prior stage's dispatch
      net of shedding when prior results are given; the dispatch columns are
      only filled in OPF mode. */
  function GeneratorEntry(elm: Generator, k: nat, opfResults: Option<OpfResults>, opf: bool): GeneratorRow
    requires opfResults.Some? ==>
               k < |opfResults.value.generatorPower| && k < |opfResults.value.generatorShedding|
  {
    var p := if opfResults.Some?
             then opfResults.value.generatorPower[k] - opfResults.value.generatorShedding[k]
             else elm.P;
    var row := GeneratorRow(elm.name, elm.Qmin, elm.Qmax, elm.isControlled, elm.Snom,
                            p, elm.active, elm.Pf, elm.Vset, false, 0.0, 0.0, 0.0);
    if opf then row.(dispatchable := elm.enabledDispatch, pmax := elm.Pmax, pmin := elm.Pmin, cost := elm.cost)
    else row
  }

  /** Prior results, when given, hold the power and the shedding of the first n generators. */
  predicate PriorCoversGenerators(opfResults: Option<OpfResults>, n: nat) {
    opfResults.Some? ==> n <= |opfResults.value.generatorPower| && n <= |opfResults.value.generatorShedding|
  }

  /** The generators as set-point sources, in order. */
  function GeneratorSources(devs: seq<Generator>): seq<SetPointSource> {
    seq(|devs|, j requires 0 <= j < |devs| => SetPointSource(devs[j].bus, devs[j].Vset))
  }

  class GeneratorData {
    const rows: array<GeneratorRow>
    const cBusGen: array2<int>

    constructor (ngen: nat, nbus: nat)
      ensures fresh(rows) && fresh(cBusGen)
      ensures rows.Length == ngen && cBusGen.Length0 == nbus && cBusGen.Length1 == ngen
      ensures forall i, k :: 0 <= i < nbus && 0 <= k < ngen ==> cBusGen[i, k] == 0
    {
      rows := new GeneratorRow[ngen](_ => GeneratorRow("", 0.0, 0.0, false, 0.0, 0.0, false, 0.0, 0.0, false, 0.0, 0.0, 0.0));
      cBusGen := new int[nbus, ngen]((_, _) => 0);
    }

    /** The first k rows hold the entries of the first k generators. */
    ghost predicate Filled(devs: seq<Generator>, k: nat, opfResults: Option<OpfResults>, opf: bool)
      reads rows
    {
      k <= |devs| && k <= rows.Length &&
      PriorCoversGenerators(opfResults, k) &&
      forall j :: 0 <= j < k ==> rows[j] == GeneratorEntry(devs[j], j, opfResults, opf)
    }

    /** The incidence matrix marks generator j at the bus of the j-th request, for the first |reqs| generators. */
    ghost predicate Marks(reqs: seq<SeedRequest>)
      reads cBusGen
    {
      forall i, j :: 0 <= i < cBusGen.Length0 && 0 <= j < cBusGen.Length1 ==>
        cBusGen[i, j] == if j < |reqs| && i == reqs[j].bus then 1 else 0
    }

    /** Once every generator is stored, row k is generator k's entry and
        column k of the incidence matrix is marked exactly at its bus. */
    lemma Complete(devs: seq<Generator>, opfResults: Option<OpfResults>, opf: bool,
                   busDict: BusDict, srcs: seq<SetPointSource>, reqs: seq<SeedRequest>)
      requires Filled(devs, |devs|, opfResults, opf) && Marks(reqs)
      requires |reqs| == |devs| == cBusGen.Length1 && srcs == GeneratorSources(devs) && Offers(reqs, srcs, busDict)
      ensures forall k :: 0 <= k < |devs| ==> devs[k].bus in busDict
      ensures forall k :: 0 <= k < |devs| ==> rows[k] == GeneratorEntry(devs[k], k, opfResults, opf)
      ensures forall i, k :: 0 <= i < cBusGen.Length0 && 0 <= k < |devs| ==>
                cBusGen[i, k] == if i == busDict[devs[k].bus] then 1 else 0
    {
      assert forall k :: 0 <= k < |devs| ==> srcs[k].bus == devs[k].bus;
    }

    /** Stores the row of generator k and marks it at the bus of its request. */
    method Put(devs: seq<Generator>, k: nat, opfResults: Option<OpfResults>, opf: bool,
               req: SeedRequest, ghost reqs: seq<SeedRequest>)
      requires k == |reqs| && k < |devs| && k < rows.Length == cBusGen.Length1 && 0 <= req.bus < cBusGen.Length0
      requires Filled(devs, k, opfResults, opf) && Marks(reqs)
      requires PriorCoversGenerators(opfResults, k + 1)
      modifies rows, cBusGen
      ensures Filled(devs, k + 1, opfResults, opf) && Marks(reqs + [req])
    {
      rows[k] := GeneratorEntry(devs[k], k, opfResults, opf);
      cBusGen[req.bus, k] := 1;
    }
  }

  /** Generator k's step of the builder: its row and incidence mark, and its set point offered to the seed. */
  method StoreGenerator(data: GeneratorData, devices: seq<Generator>, k: nat, opfResults: Option<OpfResults>, opf: bool,
                        busDict: BusDict, Vbus: array<Complex>, logger: Logger, ghost init: Seeds,
                        ghost srcs: seq<SetPointSource>, ghost reqs: seq<SeedRequest>)
    returns (ghost reqs': seq<SeedRequest>)
    requires k == |reqs| && k < |devices| == data.rows.Length == data.cBusGen.Length1
    requires srcs == GeneratorSources(devices) && |init.v| == Vbus.Length == data.cBusGen.Length0
    requires devices[k].bus in busDict && BusIndexMap(busDict, Vbus.Length) && PriorCoversGenerators(opfResults, k + 1)
    requires Offers(reqs, srcs, busDict) && data.Filled(devices, k, opfResults, opf) && data.Marks(reqs)
    requires RequestsInRange(reqs, Vbus.Length) && Holds(Vbus, logger, SeedFold(init, reqs))
    modifies data.rows, data.cBusGen, Vbus, logger
    ensures |reqs'| == k + 1
    ensures Offers(reqs', srcs, busDict) && data.Filled(devices, k + 1, opfResults, opf) && data.Marks(reqs')
    ensures RequestsInRange(reqs', Vbus.Length) && Holds(Vbus, logger, SeedFold(init, reqs'))
  {
    var elm := devices[k];
    var req := SeedRequest(busDict[elm.bus], elm.Vset, elm.bus.name);
    data.Put(devices, k, opfResults, opf, req, reqs);
    OfferSetPoint(Vbus, logger, init, reqs, req);
    reqs' := reqs + [req];
  }

  /** Besides filling its container, the generator builder offers every
      generator's set point to the shared voltage seed (see SeedStep). */
  method GetGeneratorData(circuit: MultiCircuit, busDict: BusDict, Vbus: array<Complex>, logger: Logger,
                          opfResults: Option<OpfResults>, opf: bool)
    returns (data: GeneratorData, ok: bool)
    requires BusIndexMap(busDict, |circuit.buses|)
    requires Vbus.Length == |circuit.buses|
    modifies Vbus, logger
    ensures fresh(data.rows) && fresh(data.cBusGen)
    ensures data.rows.Length == |circuit.generators|
    ensures data.cBusGen.Length0 == |circuit.buses| && data.cBusGen.Length1 == |circuit.generators|
    ensures ok <==> && (forall k :: 0 <= k < |circuit.generators| ==> circuit.generators[k].bus in busDict)
                    && PriorCoversGenerators(opfResults, |circuit.generators|)
    ensures ok ==> forall k :: 0 <= k < |circuit.generators| ==>
                     data.rows[k] == GeneratorEntry(circuit.generators[k], k, opfResults, opf)
    ensures ok ==> forall i, k :: 0 <= i < |circuit.buses| && 0 <= k < |circuit.generators| ==>
                     data.cBusGen[i, k] == if i == busDict[circuit.generators[k].bus] then 1 else 0
    ensures ok ==> Seeds(Vbus[..], logger.entries) ==
                   SeedFold(Seeds(old(Vbus[..]), old(logger.entries)),
                            SeedRequests(GeneratorSources(circuit.generators), busDict))
  {
    var devices := circuit.generators;
    data := new GeneratorData(|devices|, |circuit.buses|);
    ghost var init := Seeds(Vbus[..], logger.entries);
    ghost var srcs := GeneratorSources(devices);
    ghost var reqs: seq<SeedRequest> := [];
    ok := true;
    var k := 0;
    while k < |devices|
      invariant 0 <= k <= |devices| && |reqs| == k
      invariant Offers(reqs, srcs, busDict)
      invariant data.Filled(devices, k, opfResults, opf) && data.Marks(reqs)
      invariant RequestsInRange(reqs, |circuit.buses|)
      invariant Holds(Vbus, logger, SeedFold(init, reqs))
    {
      var elm := devices[k];
      if elm.bus !in busDict || !PriorCoversGenerators(opfResults, k + 1) {
        ok := false;
        return;
      }
      reqs := StoreGenerator(data, devices, k, opfResults, opf, busDict, Vbus, logger, init, srcs, reqs);
      k := k + 1;
    }
    data.Complete(devices, opfResults, opf, busDict, srcs, reqs);
    HoldsAll(Vbus, logger, init, srcs, busDict, reqs);
  }

  // ---------------------------------------------------------------- batteries

  datatype BatteryRow = BatteryRow(
    name: string, qmin: real, qmax: real, controllable: bool, installedP: real,
    p: real, active: bool, pf: real, v: real,
    dispatchable: bool, pmax: real, pmin: real, enom: real,
    minSoc: real, maxSoc: real, soc0: real,
    dischargeEfficiency: real, chargeEfficiency: real, cost: real)

  /** The row of battery k: its active power is the prior stage's battery
      dispatch when prior results are given; the dispatch columns are only
      filled in OPF mode, and the minimum state of charge column receives the
      device's maximum state of charge, as the builder writes it. */
  function BatteryEntry(elm: Battery, k: nat, opfResults: Option<OpfResults>, opf: bool): BatteryRow
    requires opfResults.Some? ==> k < |opfResults.value.batteryPower|
  {
    var p := if opfResults.Some? then opfResults.value.batteryPower[k] else elm.P;
    var row := BatteryRow(elm.name, elm.Qmin, elm.Qmax, elm.isControlled, elm.Snom,
                          p, elm.active, elm.Pf, elm.Vset,
                          false, 0.0, 0.0, 0.0, 0.0, 0.0, 0.0, 0.0, 0.0, 0.0);
    if opf then
      row.(dispatchable := elm.enabledDispatch, pmax := elm.Pmax, pmin := elm.Pmin, enom := elm.Enom,
           minSoc := elm.maxSoc, maxSoc := elm.maxSoc, soc0 := elm.soc0,
           dischargeEfficiency := elm.dischargeEfficiency, chargeEfficiency := elm.chargeEfficiency,
           cost := elm.cost)
    else row
  }

  /** Prior results, when given, hold the dispatched power of the first n batteries. */
  predicate PriorCoversBatteries(opfResults: Option<OpfResults>, n: nat) {
    opfResults.Some? ==> n <= |opfResults.value.batteryPower|
  }

  /** The batteries as set-point sources, in order. */
  function BatterySources(devs: seq<Battery>): seq<SetPointSource> {
    seq(|devs|, j requires 0 <= j < |devs| => SetPointSource(devs[j].bus, devs[j].Vset))
  }

  class BatteryData {
    const rows: array<BatteryRow>
    const cBusBatt: array2<int>

    constructor (nbatt: nat, nbus: nat)
      ensures fresh(rows) && fresh(cBusBatt)
      ensures rows.Length == nbatt && cBusBatt.Length0 == nbus && cBusBatt.Length1 == nbatt
      ensures forall i, k :: 0 <= i < nbus && 0 <= k < nbatt ==> cBusBatt[i, k] == 0
    {
      rows := new BatteryRow[nbatt](_ => BatteryRow("", 0.0, 0.0, false, 0.0, 0.0, false, 0.0, 0.0,
                                                    false, 0.0, 0.0, 0.0, 0.0, 0.0, 0.0, 0.0, 0.0, 0.0));
      cBusBatt := new int[nbus, nbatt]((_, _) => 0);
    }

    /** The first k rows hold the entries of the first k batteries. */
    ghost predicate Filled(devs: seq<Battery>, k: nat, opfResults: Option<OpfResults>, opf: bool)
      reads rows
    {
      k <= |devs| && k <= rows.Length &&
      PriorCoversBatteries(opfResults, k) &&
      forall j :: 0 <= j < k ==> rows[j] == BatteryEntry(devs[j], j, opfResults, opf)
    }

    /** The incidence matrix marks battery j at the bus of the j-th request, for the first |reqs| batteries. */
    ghost predicate Marks(reqs: seq<SeedRequest>)
      reads cBusBatt
    {
      forall i, j :: 0 <= i < cBusBatt.Length0 && 0 <= j < cBusBatt.Length1 ==>
        cBusBatt[i, j] == if j < |reqs| && i == reqs[j].bus then 1 else 0
    }

    /** Once every battery is stored, row k is battery k's entry and
        column k of the incidence matrix is marked exactly at its bus. */
    lemma Complete(devs: seq<Battery>, opfResults: Option<OpfResults>, opf: bool,
                   busDict: BusDict, srcs: seq<SetPointSource>, reqs: seq<SeedRequest>)
      requires Filled(devs, |devs|, opfResults, opf) && Marks(reqs)
      requires |reqs| == |devs| == cBusBatt.Length1 && srcs == BatterySources(devs) && Offers(reqs, srcs, busDict)
      ensures forall k :: 0 <= k < |devs| ==> devs[k].bus in busDict
      ensures forall k :: 0 <= k < |devs| ==> rows[k] == BatteryEntry(devs[k], k, opfResults, opf)
      ensures forall i, k :: 0 <= i < cBusBatt.Length0 && 0 <= k < |devs| ==>
                cBusBatt[i, k] == if i == busDict[devs[k].bus] then 1 else 0
    {
      assert forall k :: 0 <= k < |devs| ==> srcs[k].bus == devs[k].bus;
    }

    /** Stores the row of battery k and marks it at the bus of its request. */
    method Put(devs: seq<Battery>, k: nat, opfResults: Option<OpfResults>, opf: bool,
               req: SeedRequest, ghost reqs: seq<SeedRequest>)
      requires k == |reqs| && k < |devs| && k < rows.Length == cBusBatt.Length1 && 0 <= req.bus < cBusBatt.Length0
      requires Filled(devs, k, opfResults, opf) && Marks(reqs)
      requires PriorCoversBatteries(opfResults, k + 1)
      modifies rows, cBusBatt
      ensures Filled(devs, k + 1, opfResults, opf) && Marks(reqs + [req])
    {
      rows[k] := BatteryEntry(devs[k], k, opfResults, opf);
      cBusBatt[req.bus, k] := 1;
    }
  }

  /** Battery k's step of the builder: its row and incidence mark, and its set point offered to the seed. */
  method StoreBattery(data: BatteryData, devices: seq<Battery>, k: nat, opfResults: Option<OpfResults>, opf: bool,
                      busDict: BusDict, Vbus: array<Complex>, logger: Logger, ghost init: Seeds,
                      ghost srcs: seq<SetPointSource>, ghost reqs: seq<SeedRequest>)
    returns (ghost reqs': seq<SeedRequest>)
    requires k == |reqs| && k < |devices| == data.rows.Length == data.cBusBatt.Length1
    requires srcs == BatterySources(devices) && |init.v| == Vbus.Length == data.cBusBatt.Length0
    requires devices[k].bus in busDict && BusIndexMap(busDict, Vbus.Length) && PriorCoversBatteries(opfResults, k + 1)
    requires Offers(reqs, srcs, busDict) && data.Filled(devices, k, opfResults, opf) && data.Marks(reqs)
    requires RequestsInRange(reqs, Vbus.Length) && Holds(Vbus, logger, SeedFold(init, reqs))
    modifies data.rows, data.cBusBatt, Vbus, logger
    ensures |reqs'| == k + 1
    ensures Offers(reqs', srcs, busDict) && data.Filled(devices, k + 1, opfResults, opf) && data.Marks(reqs')
    ensures RequestsInRange(reqs', Vbus.Length) && Holds(Vbus, logger, SeedFold(init, reqs'))
  {
    var elm := devices[k];
    var req := SeedRequest(busDict[elm.bus], elm.Vset, elm.bus.name);
    data.Put(devices, k, opfResults, opf, req, reqs);
    OfferSetPoint(Vbus, logger, init, reqs, req);
    reqs' := reqs + [req];
  }

  /** Same voltage seed rule as the generator builder. */
  method GetBatteryData(circuit: MultiCircuit, busDict: BusDict, Vbus: array<Complex>, logger: Logger,
                        opfResults: Option<OpfResults>, opf: bool)
    returns (data: BatteryData, ok: bool)
    requires BusIndexMap(busDict, |circuit.buses|)
    requires Vbus.Length == |circuit.buses|
    modifies Vbus, logger
    ensures fresh(data.rows) && fresh(data.cBusBatt)
    ensures data.rows.Length == |circuit.batteries|
    ensures data.cBusBatt.Length0 == |circuit.buses| && data.cBusBatt.Length1 == |circuit.batteries|
    ensures ok <==> && (forall k :: 0 <= k < |circuit.batteries| ==> circuit.batteries[k].bus in busDict)
                    && PriorCoversBatteries(opfResults, |circuit.batteries|)
    ensures ok ==> forall k :: 0 <= k < |circuit.batteries| ==>
                     data.rows[k] == BatteryEntry(circuit.batteries[k], k, opfResults, opf)
    ensures ok ==> forall i, k :: 0 <= i < |circuit.buses| && 0 <= k < |circuit.batteries| ==>
                     data.cBusBatt[i, k] == if i == busDict[circuit.batteries[k].bus] then 1 else 0
    ensures ok ==> Seeds(Vbus[..], logger.entries) ==
                   SeedFold(Seeds(old(Vbus[..]), old(logger.entries)),
                            SeedRequests(BatterySources(circuit.batteries), busDict))
  {
    var devices := circuit.batteries;
    data := new BatteryData(|devices|, |circuit.buses|);
    ghost var init := Seeds(Vbus[..], logger.entries);
    ghost var srcs := BatterySources(devices);
    ghost var reqs: seq<SeedRequest> := [];
    ok := true;
    var k := 0;
    while k < |devices|
      invariant 0 <= k <= |devices| && |reqs| == k
      invariant Offers(reqs, srcs, busDict)
      invariant data.Filled(devices, k, opfResults, opf) && data.Marks(reqs)
      invariant RequestsInRange(reqs, |circuit.buses|)
      invariant Holds(Vbus, logger, SeedFold(init, reqs))
    {
      var elm := devices[k];
      if elm.bus !in busDict || !PriorCoversBatteries(opfResults, k + 1) {
        ok := false;
        return;
      }
      reqs := StoreBattery(data, devices, k, opfResults, opf, busDict, Vbus, logger, init, srcs, reqs);
      k := k + 1;
    }
    data.Complete(devices, opfResults, opf, busDict, srcs, reqs);
    HoldsAll(Vbus, logger, init, srcs, busDict, reqs);
  }

  // ---------------------------------------------------------------- netting of a prior stage

  /** With prior results, a load's row carries P + jQ less the shedding of
      that load on the active part only; every other column is as without them. */
  lemma LoadNetting(elm: Load, k: nat, res: OpfResults, opf: bool)
    requires k < |res.loadShedding|
    ensures LoadEntry(elm, k, Some(res), opf).s == Complex(elm.P - res.loadShedding[k], elm.Q)
    ensures LoadEntry(elm, k, Some(res), opf) ==
            LoadEntry(elm, k, None, opf).(s := LoadEntry(elm, k, Some(res), opf).s)
  {
  }

  /** With prior results, a generator's power is the earlier dispatch less its
      shedding, in place of the device's own P; every other column is as without them. */
  lemma GeneratorNetting(elm: Generator, k: nat, res: OpfResults, opf: bool)
    requires k < |res.generatorPower| && k < |res.generatorShedding|
    ensures GeneratorEntry(elm, k, Some(res), opf).p == res.generatorPower[k] - res.generatorShedding[k]
    ensures GeneratorEntry(elm, k, None, opf).p == elm.P
    ensures GeneratorEntry(elm, k, Some(res), opf) ==
            GeneratorEntry(elm, k, None, opf).(p := res.generatorPower[k] - res.generatorShedding[k])
  {
  }

  /** With prior results, a battery's power is the earlier dispatch, in place of
      the device's own P; every other column is as without them. */
  lemma BatteryNetting(elm: Battery, k: nat, res: OpfResults, opf: bool)
    requires k < |res.batteryPower|
    ensures BatteryEntry(elm, k, Some(res), opf).p == res.batteryPower[k]
    ensures BatteryEntry(elm, k, None, opf).p == elm.P
    ensures BatteryEntry(elm, k, Some(res), opf) ==
            BatteryEntry(elm, k, None, opf).(p := res.batteryPower[k])
  {
  }
}
