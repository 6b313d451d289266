/** The buffers every builder shares during one compilation: the per-bus
    voltage seed, the per-bus type classification and the diagnostic log,
    with the rules by which builders may change them. */
module CompilationContext {
  import opened ComplexNumbers
  import opened CircuitModel

  /** A log line; the source formats it as text, the model keeps its parts. */
  datatype LogEntry = DifferentSetPoints(busName: string, vset: real, seed: Complex)

  /** The diagnostic log the builders append to. */
  class Logger {
    var entries: seq<LogEntry>

    constructor ()
      ensures entries == []
    {
      entries := [];
    }
  }

  /** One voltage set point offered to the seed buffer by a generator or battery. */
  datatype SeedRequest = SeedRequest(bus: int, vset: real, busName: string)

  /** The voltage seed buffer together with the log. */
  datatype Seeds = Seeds(v: seq<Complex>, log: seq<LogEntry>)

  /** The set-point rule shared by the generator and battery builders: a seed
      whose real part is still 1.0 takes the device's set point; otherwise a
      different set point is only logged, once, and the seed is kept. */
  function SeedStep(st: Seeds, req: SeedRequest): (r: Seeds)
    requires 0 <= req.bus < |st.v|
    ensures |r.v| == |st.v|
    ensures forall j :: 0 <= j < |st.v| && j != req.bus ==> r.v[j] == st.v[j]
    ensures st.v[req.bus].re == 1.0 ==> r.v[req.bus] == FromReal(req.vset) && r.log == st.log
    ensures st.v[req.bus].re != 1.0 && FromReal(req.vset) != st.v[req.bus] ==>
              r.v == st.v && r.log == st.log + [DifferentSetPoints(req.busName, req.vset, st.v[req.bus])]
    ensures st.v[req.bus].re != 1.0 && FromReal(req.vset) == st.v[req.bus] ==> r == st
  {
    var seed := st.v[req.bus];
    if seed.re == 1.0 then
      Seeds(st.v[req.bus := FromReal(req.vset)], st.log)
    else if FromReal(req.vset) != seed then
      Seeds(st.v, st.log + [DifferentSetPoints(req.busName, req.vset, seed)])
    else
      st
  }

  /** The set-point rule applied in place to the shared buffers. */
  method ApplySetPoint(Vbus: array<Complex>, logger: Logger, req: SeedRequest)
    requires 0 <= req.bus < Vbus.Length
    modifies Vbus, logger
    ensures Seeds(Vbus[..], logger.entries) == SeedStep(old(Seeds(Vbus[..], logger.entries)), req)
  {
    var i := req.bus;
    if Vbus[i].re == 1.0 {
      Vbus[i] := FromReal(req.vset);
    } else if FromReal(req.vset) != Vbus[i] {
      logger.entries := logger.entries + [DifferentSetPoints(req.busName, req.vset, Vbus[i])];
    }
  }

  ghost predicate RequestsInRange(reqs: seq<SeedRequest>, nbus: nat) {
    forall p :: 0 <= p < |reqs| ==> 0 <= reqs[p].bus < nbus
  }

  /** The seed buffer after the requests have been applied in order. */
  function SeedFold(st: Seeds, reqs: seq<SeedRequest>): (r: Seeds)
    requires RequestsInRange(reqs, |st.v|)
    ensures |r.v| == |st.v|
  {
    if reqs == [] then st
    else SeedStep(SeedFold(st, reqs[..|reqs| - 1]), reqs[|reqs| - 1])
  }

  lemma SeedFoldSnoc(st: Seeds, reqs: seq<SeedRequest>, req: SeedRequest)
    requires RequestsInRange(reqs, |st.v|) && 0 <= req.bus < |st.v|
    ensures RequestsInRange(reqs + [req], |st.v|)
    ensures SeedFold(st, reqs + [req]) == SeedStep(SeedFold(st, reqs), req)
  {
    assert (reqs + [req])[..|reqs|] == reqs;
  }

  /** The shared voltage buffer and the logger hold exactly the seed state `st`. */
  ghost predicate Holds(Vbus: array<Complex>, logger: Logger, st: Seeds)
    reads Vbus, logger
  {
    Vbus[..] == st.v && logger.entries == st.log
  }

  /** One more request applied to buffers that already hold the fold of the earlier ones. */
  method OfferSetPoint(Vbus: array<Complex>, logger: Logger, ghost init: Seeds, ghost reqs: seq<SeedRequest>,
                       req: SeedRequest)
    requires |init.v| == Vbus.Length && RequestsInRange(reqs, Vbus.Length) && 0 <= req.bus < Vbus.Length
    requires Holds(Vbus, logger, SeedFold(init, reqs))
    modifies Vbus, logger
    ensures RequestsInRange(reqs + [req], Vbus.Length)
    ensures Holds(Vbus, logger, SeedFold(init, reqs + [req]))
  {
    SeedFoldSnoc(init, reqs, req);
    ApplySetPoint(Vbus, logger, req);
  }

  /** Once a seed has left the 1.0 sentinel no later device changes it:
      the first set point that claims a bus wins. */
  lemma {:induction false} SeedClaimedIsKept(st: Seeds, reqs: seq<SeedRequest>, j: int)
    requires RequestsInRange(reqs, |st.v|)
    requires 0 <= j < |st.v| && st.v[j].re != 1.0
    ensures SeedFold(st, reqs).v[j] == st.v[j]
  {
    if reqs != [] {
      SeedClaimedIsKept(st, reqs[..|reqs| - 1], j);
    }
  }

  /** A seed not addressed by any request is untouched. */
  lemma {:induction false} SeedUntouched(st: Seeds, reqs: seq<SeedRequest>, j: int)
    requires RequestsInRange(reqs, |st.v|)
    requires 0 <= j < |st.v|
    requires forall p :: 0 <= p < |reqs| ==> reqs[p].bus != j
    ensures SeedFold(st, reqs).v[j] == st.v[j]
  {
    if reqs != [] {
      SeedUntouched(st, reqs[..|reqs| - 1], j);
    }
  }

  /** The log only grows, by at most one entry per request, and never loses an entry. */
  lemma {:induction false} SeedLogGrowth(st: Seeds, reqs: seq<SeedRequest>)
    requires RequestsInRange(reqs, |st.v|)
    ensures var log := SeedFold(st, reqs).log;
            |st.log| <= |log| <= |st.log| + |reqs| && log[..|st.log|] == st.log
  {
    if reqs != [] {
      SeedLogGrowth(st, reqs[..|reqs| - 1]);
    }
  }

  /** Two generators at one bus with set points 1.02 then 1.05: the seed keeps
      1.02 and exactly one warning names both values. */
  lemma ConflictExample(name: string)
    ensures SeedFold(Seeds([One], []), [SeedRequest(0, 1.02, name), SeedRequest(0, 1.05, name)])
            == Seeds([FromReal(1.02)], [DifferentSetPoints(name, 1.05, FromReal(1.02))])
  {
    var st := Seeds([One], []);
    var reqs := [SeedRequest(0, 1.02, name), SeedRequest(0, 1.05, name)];
    assert reqs[..1][..0] == [];
    var first := SeedFold(st, reqs[..1]);
    assert reqs[..1][0] == reqs[0];
    assert SeedFold(st, reqs[..1][..0]) == st;
    assert first == SeedStep(st, reqs[0]) == Seeds([FromReal(1.02)], []);
    assert SeedFold(st, reqs) == SeedStep(first, reqs[1]);
  }

  /** A device whose set point is exactly 1.0 leaves the sentinel in place, so
      the next device at that bus overwrites it without any warning. */
  lemma UnitSetPointDoesNotClaim(name: string)
    ensures SeedFold(Seeds([One], []), [SeedRequest(0, 1.0, name), SeedRequest(0, 1.05, name)])
            == Seeds([FromReal(1.05)], [])
  {
    var st := Seeds([One], []);
    var reqs := [SeedRequest(0, 1.0, name), SeedRequest(0, 1.05, name)];
    assert reqs[..1][..0] == [];
    var first := SeedFold(st, reqs[..1]);
    assert reqs[..1][0] == reqs[0];
    assert SeedFold(st, reqs[..1][..0]) == st;
    assert first == SeedStep(st, reqs[0]) == Seeds([FromReal(1.0)], []);
    assert SeedFold(st, reqs) == SeedStep(first, reqs[1]);
  }

  // ---------------------------------------------------------------- set-point sources

  /** A device that offers a voltage set point to the seed buffer: a
      generator, or a battery (which GridCal derives from the generator). */
  datatype SetPointSource = SetPointSource(bus: Bus, vset: real)

  predicate SourcesMapped(srcs: seq<SetPointSource>, busDict: BusDict) {
    forall j :: 0 <= j < |srcs| ==> srcs[j].bus in busDict
  }

  /** The request each source makes, in enumeration order: the set point at
      the source's mapped bus, named after that bus. */
  function SeedRequests(srcs: seq<SetPointSource>, busDict: BusDict): (reqs: seq<SeedRequest>)
    requires SourcesMapped(srcs, busDict)
    ensures |reqs| == |srcs|
    ensures forall p :: 0 <= p < |reqs| ==>
              reqs[p] == SeedRequest(busDict[srcs[p].bus], srcs[p].vset, srcs[p].bus.name)
  {
    if srcs == [] then []
    else
      var last := srcs[|srcs| - 1];
      SeedRequests(srcs[..|srcs| - 1], busDict) + [SeedRequest(busDict[last.bus], last.vset, last.bus.name)]
  }

  /** `reqs` are the requests of the first |reqs| sources. */
  ghost predicate Offers(reqs: seq<SeedRequest>, srcs: seq<SetPointSource>, busDict: BusDict) {
    |reqs| <= |srcs| &&
    forall j :: 0 <= j < |reqs| ==>
      srcs[j].bus in busDict && reqs[j] == SeedRequest(busDict[srcs[j].bus], srcs[j].vset, srcs[j].bus.name)
  }

  /** Once every source has made its request, the requests are SeedRequests. */
  lemma RequestsAre(srcs: seq<SetPointSource>, busDict: BusDict, reqs: seq<SeedRequest>)
    requires Offers(reqs, srcs, busDict) && |reqs| == |srcs|
    ensures SourcesMapped(srcs, busDict)
    ensures reqs == SeedRequests(srcs, busDict)
  {
  }

  /** Buffers holding the fold of every source's request hold the fold of SeedRequests. */
  lemma HoldsAll(Vbus: array<Complex>, logger: Logger, init: Seeds, srcs: seq<SetPointSource>,
                 busDict: BusDict, reqs: seq<SeedRequest>)
    requires Offers(reqs, srcs, busDict) && |reqs| == |srcs|
    requires RequestsInRange(reqs, |init.v|) && Holds(Vbus, logger, SeedFold(init, reqs))
    ensures SourcesMapped(srcs, busDict) && RequestsInRange(SeedRequests(srcs, busDict), |init.v|)
    ensures Seeds(Vbus[..], logger.entries) == SeedFold(init, SeedRequests(srcs, busDict))
  {
    RequestsAre(srcs, busDict, reqs);
  }

  /** Buses forced to PV by the HVDC links processed so far: both endpoints of
      every active link. */
  function ForcedPV(links: seq<Hvdc>, busDict: BusDict): set<int>
    requires forall h :: 0 <= h < |links| ==> links[h].busFrom in busDict && links[h].busTo in busDict
  {
    if links == [] then {}
    else
      var last := links[|links| - 1];
      ForcedPV(links[..|links| - 1], busDict)
        + (if last.active then {busDict[last.busFrom], busDict[last.busTo]} else {})
  }

  /** A bus is forced to PV exactly when it is an endpoint of an active link. */
  lemma {:induction false} ForcedPVExactly(links: seq<Hvdc>, busDict: BusDict, j: int)
    requires forall h :: 0 <= h < |links| ==> links[h].busFrom in busDict && links[h].busTo in busDict
    ensures j in ForcedPV(links, busDict) <==>
            exists h :: 0 <= h < |links| && links[h].active &&
                        (busDict[links[h].busFrom] == j || busDict[links[h].busTo] == j)
  {
    if links != [] {
      var n := |links| - 1;
      var prefix := links[..n];
      ForcedPVExactly(prefix, busDict, j);
      if j in ForcedPV(links, busDict) {
        if j in ForcedPV(prefix, busDict) {
          var h :| 0 <= h < n && prefix[h].active &&
                   (busDict[prefix[h].busFrom] == j || busDict[prefix[h].busTo] == j);
          assert links[h] == prefix[h];
        } else {
          assert links[n].active;
        }
      } else {
        forall h | 0 <= h < |links|
          ensures !(links[h].active && (busDict[links[h].busFrom] == j || busDict[links[h].busTo] == j))
        {
          if h < n {
            assert links[h] == prefix[h];
          }
        }
      }
    }
  }
}
