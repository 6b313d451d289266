/** The HVDC-link container and its builder, which also rewrites the bus
    types of the endpoints of every active link to PV. */
module HvdcDeviceData {
  import opened CircuitModel
  import opened CompilationContext

  /** One HVDC link as the container stores it; Pf and Pt are the link's
      from/to powers. */
  datatype HvdcRow = HvdcRow(
    name: string, active: bool, rate: real, Pf: real, Pt: real, VsetF: real, VsetT: real,
    lossFactor: real, QminF: real, QmaxF: real, QminT: real, QmaxT: real)

  function HvdcEntry(elm: Hvdc): HvdcRow {
    HvdcRow(elm.name, elm.active, elm.rate, elm.powerFrom, elm.powerTo, elm.VsetF, elm.VsetT,
            elm.lossFactor, elm.QminF, elm.QmaxF, elm.QminT, elm.QmaxT)
  }

  predicate LinksMapped(links: seq<Hvdc>, busDict: BusDict) {
    forall h :: 0 <= h < |links| ==> links[h].busFrom in busDict && links[h].busTo in busDict
  }

  class HvdcData {
    const rows: array<HvdcRow>
    /** The from-side and to-side incidence matrices, nhvdc x nbus. */
    const cHvdcBusF: array2<int>
    const cHvdcBusT: array2<int>

    constructor (nhvdc: nat, nbus: nat)
      ensures fresh(rows) && fresh(cHvdcBusF) && fresh(cHvdcBusT) && cHvdcBusF != cHvdcBusT
      ensures rows.Length == nhvdc
      ensures cHvdcBusF.Length0 == nhvdc && cHvdcBusF.Length1 == nbus
      ensures cHvdcBusT.Length0 == nhvdc && cHvdcBusT.Length1 == nbus
      ensures forall i, b :: 0 <= i < nhvdc && 0 <= b < nbus ==> cHvdcBusF[i, b] == 0 && cHvdcBusT[i, b] == 0
    {
      rows := new HvdcRow[nhvdc](_ => HvdcRow("", false, 0.0, 0.0, 0.0, 0.0, 0.0, 0.0, 0.0, 0.0, 0.0, 0.0));
      cHvdcBusF := new int[nhvdc, nbus]((_, _) => 0);
      cHvdcBusT := new int[nhvdc, nbus]((_, _) => 0);
    }

    /** The first k links are stored: their rows, and their unit entries in
        both incidence matrices, every other entry still zero. */
    ghost predicate Filled(links: seq<Hvdc>, busDict: BusDict, k: nat)
      reads rows, cHvdcBusF, cHvdcBusT
    {
      && k <= |links| == rows.Length == cHvdcBusF.Length0 == cHvdcBusT.Length0
      && cHvdcBusF.Length1 == cHvdcBusT.Length1 && cHvdcBusF != cHvdcBusT
      && LinksMapped(links[..k], busDict)
      && (forall j :: 0 <= j < k ==> rows[j] == HvdcEntry(links[j]))
      && (forall j, b :: 0 <= j < |links| && 0 <= b < cHvdcBusF.Length1 ==>
            cHvdcBusF[j, b] == (if j < k && b == busDict[links[j].busFrom] then 1 else 0))
      && (forall j, b :: 0 <= j < |links| && 0 <= b < cHvdcBusT.Length1 ==>
            cHvdcBusT[j, b] == (if j < k && b == busDict[links[j].busTo] then 1 else 0))
    }

    /** Stores link k between bus indices f and t. */
    method Put(links: seq<Hvdc>, busDict: BusDict, k: nat, f: int, t: int)
      requires Filled(links, busDict, k) && k < |links|
      requires links[k].busFrom in busDict && links[k].busTo in busDict
      requires f == busDict[links[k].busFrom] && t == busDict[links[k].busTo]
      requires 0 <= f < cHvdcBusF.Length1 && 0 <= t < cHvdcBusF.Length1
      modifies rows, cHvdcBusF, cHvdcBusT
      ensures Filled(links, busDict, k + 1)
    {
      rows[k] := HvdcEntry(links[k]);
      cHvdcBusF[k, f] := 1;
      cHvdcBusT[k, t] := 1;
      assert links[..k + 1] == links[..k] + [links[k]];
    }
  }

  /** After the first k links, the bus types are PV on exactly the endpoints
      of the active ones among them and as in `types0` elsewhere. */
  ghost predicate PromotedAfter(busTypes: array<BusMode>, types0: seq<BusMode>, links: seq<Hvdc>, busDict: BusDict, k: nat)
    reads busTypes
  {
    && k <= |links| && |types0| == busTypes.Length
    && LinksMapped(links[..k], busDict)
    && forall j :: 0 <= j < busTypes.Length ==>
         busTypes[j] == if j in ForcedPV(links[..k], busDict) then PV else types0[j]
  }

  /** The bus-type rewrite of one link: both endpoints become PV when the link is active. */
  method Promote(busTypes: array<BusMode>, ghost types0: seq<BusMode>, links: seq<Hvdc>, busDict: BusDict,
                 k: nat, f: int, t: int)
    requires PromotedAfter(busTypes, types0, links, busDict, k) && k < |links|
    requires links[k].busFrom in busDict && links[k].busTo in busDict
    requires f == busDict[links[k].busFrom] && t == busDict[links[k].busTo]
    requires 0 <= f < busTypes.Length && 0 <= t < busTypes.Length
    modifies busTypes
    ensures PromotedAfter(busTypes, types0, links, busDict, k + 1)
  {
    assert links[..k + 1][..k] == links[..k];
    if links[k].active {
      busTypes[f] := PV;
      busTypes[t] := PV;
    }
  }

  /** Builds the HVDC container. On success every link's row is stored, its
      from (to) incidence row is the unit vector at its from (to) bus, and
      the bus types of exactly the endpoints of the active links are PV,
      every other bus keeping its type. */
  method GetHvdcData(circuit: MultiCircuit, busDict: BusDict, busTypes: array<BusMode>)
    returns (data: HvdcData, ok: bool)
    requires BusIndexMap(busDict, |circuit.buses|) && busTypes.Length == |circuit.buses|
    modifies busTypes
    ensures fresh(data.rows) && fresh(data.cHvdcBusF) && fresh(data.cHvdcBusT) && data.cHvdcBusF != data.cHvdcBusT
    ensures data.rows.Length == |circuit.hvdcLines|
    ensures data.cHvdcBusF.Length0 == |circuit.hvdcLines| && data.cHvdcBusF.Length1 == |circuit.buses|
    ensures data.cHvdcBusT.Length0 == |circuit.hvdcLines| && data.cHvdcBusT.Length1 == |circuit.buses|
    ensures ok <==> LinksMapped(circuit.hvdcLines, busDict)
    ensures ok ==> forall i :: 0 <= i < |circuit.hvdcLines| ==> data.rows[i] == HvdcEntry(circuit.hvdcLines[i])
    ensures ok ==> forall i, b :: 0 <= i < |circuit.hvdcLines| && 0 <= b < |circuit.buses| ==>
                     && data.cHvdcBusF[i, b] == (if b == busDict[circuit.hvdcLines[i].busFrom] then 1 else 0)
                     && data.cHvdcBusT[i, b] == (if b == busDict[circuit.hvdcLines[i].busTo] then 1 else 0)
    ensures ok ==> forall j :: 0 <= j < busTypes.Length ==>
                     busTypes[j] == if j in ForcedPV(circuit.hvdcLines, busDict) then PV else old(busTypes[j])
  {
    var links := circuit.hvdcLines;
    data := new HvdcData(|links|, |circuit.buses|);
    ghost var types0 := busTypes[..];
    ok := true;
    var i := 0;
    while i < |links|
      invariant 0 <= i <= |links|
      invariant data.Filled(links, busDict, i)
      invariant PromotedAfter(busTypes, types0, links, busDict, i)
    {
      var elm := links[i];
      if elm.busFrom !in busDict || elm.busTo !in busDict {
        ok := false;
        return;
      }
      var f := busDict[elm.busFrom];
      var t := busDict[elm.busTo];
      Promote(busTypes, types0, links, busDict, i, f, t);
      data.Put(links, busDict, i, f, t);
      i := i + 1;
    }
    assert links[..i] == links;
  }

  /** A link that is out of service forces nothing: the PV set of a
      sequence of links is unchanged by appending an inactive one. */
  lemma InactiveLinkForcesNothing(links: seq<Hvdc>, busDict: BusDict, elm: Hvdc)
    requires LinksMapped(links + [elm], busDict) && !elm.active
    ensures LinksMapped(links, busDict)
    ensures ForcedPV(links + [elm], busDict) == ForcedPV(links, busDict)
  {
    assert forall h :: 0 <= h < |links| ==> links[h] == (links + [elm])[h];
    assert (links + [elm])[..|links|] == links;
  }
}
