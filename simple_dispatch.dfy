/** The heuristic dispatch: every active generator takes a share of the
    active load proportional to its maximum power, and the other result
    fields are set to zero vectors. */
module SimpleDispatch {
  import opened Vectors
  import CN = ComplexNumbers

  /** A float result: a finite value, or the inf/nan numpy produces on a division by zero. */
  datatype Float = Num(value: real) | NonFinite

  /** numpy's `x / y` on floats. */
  function Div(x: real, y: real): Float {
    if y == 0.0 then NonFinite else Num(x / y)
  }

  /** numpy's `x * c` on a float result. */
  function Times(x: Float, c: real): Float {
    match x
    case Num(v) => Num(c * v)
    case NonFinite => NonFinite
  }

  /** `xs * c` on a vector of float results. */
  function TimesAll(xs: seq<Float>, c: real): (r: seq<Float>)
    ensures |r| == |xs| && forall k :: 0 <= k < |xs| ==> r[k] == Times(xs[k], c)
  {
    seq(|xs|, k requires 0 <= k < |xs| => Times(xs[k], c))
  }

  /** `num / den`, element by element. */
  function Ratios(num: seq<real>, den: seq<real>): (r: seq<Float>)
    requires |num| == |den|
    ensures |r| == |num| && forall k :: 0 <= k < |num| ==> r[k] == Div(num[k], den[k])
  {
    seq(|num|, k requires 0 <= k < |num| => Div(num[k], den[k]))
  }

  predicate AllFinite(xs: seq<Float>) {
    forall k :: 0 <= k < |xs| ==> xs[k].Num?
  }

  function Values(xs: seq<Float>): (vs: seq<real>)
    requires AllFinite(xs)
    ensures |vs| == |xs| && forall k :: 0 <= k < |xs| ==> vs[k] == xs[k].value
  {
    seq(|xs|, k requires 0 <= k < |xs| => xs[k].value)
  }

  /** The parts of the compiled circuit the dispatch reads (snapshot). */
  datatype NumericalCircuit = NumericalCircuit(
    nbus: nat, nbr: nat, nbatt: nat, Sbase: real,
    generatorPmax: seq<real>, generatorActive: seq<bool>,
    loadActive: seq<bool>, loadPower: seq<CN.Complex>, brRates: seq<real>)
  {
    /** Parallel arrays agree in length and the base power is positive. */
    predicate Valid() {
      Sbase > 0.0 && |generatorPmax| == |generatorActive| && |loadActive| == |loadPower| && |brRates| == nbr
    }
  }

  /** Per-unit active power of each load, zero when the load is off. */
  function LoadDemand(nc: NumericalCircuit): (Pl: seq<real>)
    requires nc.Valid()
    ensures |Pl| == |nc.loadActive|
    ensures forall l :: 0 <= l < |Pl| ==> Pl[l] == if nc.loadActive[l] then nc.loadPower[l].re / nc.Sbase else 0.0
  {
    Scale(1.0 / nc.Sbase, Masked(seq(|nc.loadPower|, l requires 0 <= l < |nc.loadPower| => nc.loadPower[l].re), nc.loadActive))
  }

  /** Per-unit maximum power of each generator, zero when it is off. */
  function Available(nc: NumericalCircuit): (avail: seq<real>)
    requires nc.Valid()
    ensures |avail| == |nc.generatorPmax|
    ensures forall k :: 0 <= k < |avail| ==> avail[k] == if nc.generatorActive[k] then nc.generatorPmax[k] / nc.Sbase else 0.0
  {
    Masked(Scale(1.0 / nc.Sbase, nc.generatorPmax), nc.generatorActive)
  }

  /** One generator's dispatch, `demand * (a / total)`. */
  function Share(a: real, total: real, demand: real): Float {
    if total == 0.0 then NonFinite else Num(demand * (a / total))
  }

  /** `demand * (avail / avail.sum())`. */
  function ProportionalDispatch(avail: seq<real>, demand: real): (pg: seq<Float>)
    ensures |pg| == |avail|
  {
    seq(|avail|, k requires 0 <= k < |avail| => Share(avail[k], Sum(avail), demand))
  }

  /** With some capacity available the dispatch is finite and covers the demand exactly. */
  lemma DispatchMeetsDemand(avail: seq<real>, demand: real)
    requires Sum(avail) != 0.0
    ensures AllFinite(ProportionalDispatch(avail, demand))
    ensures Sum(Values(ProportionalDispatch(avail, demand))) == demand
  {
    var total := Sum(avail);
    var pg := ProportionalDispatch(avail, demand);
    forall k | 0 <= k < |avail| ensures Values(pg)[k] == Scale(demand / total, avail)[k] {
      assert demand * (avail[k] / total) == demand / total * avail[k];
    }
    assert Values(pg) == Scale(demand / total, avail);
    SumScale(demand / total, avail);
  }

  /** p : q == x : y, written without division. */
  predicate InRatio(p: real, q: real, x: real, y: real) {
    p * y == q * x
  }

  /** Each share is proportional to the generator's available power; in
      particular a generator with nothing available gets zero. */
  lemma DispatchIsProportional(avail: seq<real>, demand: real, j: int, k: int)
    requires Sum(avail) != 0.0 && 0 <= j < |avail| && 0 <= k < |avail|
    ensures ProportionalDispatch(avail, demand)[j].Num? && ProportionalDispatch(avail, demand)[k].Num?
    ensures InRatio(ProportionalDispatch(avail, demand)[j].value, ProportionalDispatch(avail, demand)[k].value,
                    avail[j], avail[k])
    ensures avail[j] == 0.0 ==> ProportionalDispatch(avail, demand)[j] == Num(0.0)
  {
    var total := Sum(avail);
    var pg := ProportionalDispatch(avail, demand);
    assert pg[j] == Share(avail[j], total, demand) && pg[k] == Share(avail[k], total, demand);
    SharesCross(demand, avail[j], avail[k], total, pg[j], pg[k]);
  }

  /** Two shares of one total are in the ratio of their available powers, and a zero share is zero. */
  lemma SharesCross(d: real, x: real, y: real, t: real, sx: Float, sy: Float)
    requires t != 0.0 && sx == Share(x, t, d) && sy == Share(y, t, d)
    ensures sx.Num? && sy.Num? && InRatio(sx.value, sy.value, x, y)
    ensures x == 0.0 ==> sx == Num(0.0)
  {
    var q := 1.0 / t;
    assert x / t == x * q && y / t == y * q;
    calc {
      d * (x * q) * y;
      d * q * (x * y);
      d * (y * q) * x;
    }
  }

  /** Scaling finite results scales their values. */
  lemma TimesAllValues(xs: seq<Float>, c: real)
    requires AllFinite(xs)
    ensures AllFinite(TimesAll(xs, c))
    ensures Values(TimesAll(xs, c)) == Scale(c, Values(xs))
  {
    var scaled := TimesAll(xs, c);
    forall k | 0 <= k < |xs| ensures scaled[k].Num? && Values(scaled)[k] == Scale(c, Values(xs))[k] {
      assert xs[k].Num?;
      assert scaled[k] == Num(c * xs[k].value);
    }
    assert Values(scaled) == Scale(c, Values(xs));
  }

  /** The dispatch reported in MW (times Sbase) adds up to the demand in MW. */
  lemma ScaledDispatchMeetsDemand(avail: seq<real>, Pl: seq<real>, Sbase: real)
    requires Sum(avail) != 0.0
    ensures AllFinite(TimesAll(ProportionalDispatch(avail, Sum(Pl)), Sbase))
    ensures Sum(Values(TimesAll(ProportionalDispatch(avail, Sum(Pl)), Sbase))) == Sum(Scale(Sbase, Pl))
  {
    var pg := ProportionalDispatch(avail, Sum(Pl));
    DispatchMeetsDemand(avail, Sum(Pl));
    TimesAllValues(pg, Sbase);
    SumScale(Sbase, Values(pg));
    SumScale(Sbase, Pl);
  }

  /** With no capacity at all the shares are 0/0 and every result is non-finite. */
  lemma DispatchWithoutCapacity(avail: seq<real>, demand: real)
    requires Sum(avail) == 0.0
    ensures forall k :: 0 <= k < |avail| ==> ProportionalDispatch(avail, demand)[k] == NonFinite
  {
  }

  /** Generators of 100 and 50 MW (per unit on 100 MVA) sharing a 90 MW load take 60 and 30 MW. */
  lemma DispatchExample()
    ensures ProportionalDispatch([1.0, 0.5], 0.9) == [Num(0.6), Num(0.3)]
  {
    var avail := [1.0, 0.5];
    assert avail[..1][..0] == [];
    assert Sum(avail) == 1.5;
  }

  // ---------------------------------------------------------------- the solver object

  class OpfSimple {
    const nc: NumericalCircuit

    var theta: seq<real>
    var Pg: seq<Float>
    var Pb: seq<real>
    var Pl: seq<real>
    var E: seq<real>
    var loadShedding: seq<real>
    var sFrom: seq<real>
    var sTo: seq<real>
    var overloads: seq<real>
    var rating: seq<real>
    var nodalRestrictions: seq<real>

    /** The result fields start out empty until `Solve` sets them. */
    constructor (nc: NumericalCircuit)
      ensures this.nc == nc
      ensures theta == [] && Pg == [] && Pb == [] && Pl == [] && E == [] && loadShedding == []
      ensures sFrom == [] && sTo == [] && overloads == [] && rating == [] && nodalRestrictions == []
    {
      this.nc := nc;
      theta, Pg, Pb, Pl, E, loadShedding := [], [], [], [], [], [];
      sFrom, sTo, overloads, rating, nodalRestrictions := [], [], [], [], [];
    }

    /** The state `Solve` leaves behind. */
    ghost predicate Solved()
      reads this
    {
      && nc.Valid()
      && Pl == LoadDemand(nc)
      && Pg == ProportionalDispatch(Available(nc), Sum(Pl))
      && theta == Zeros(nc.nbus) && Pb == Zeros(nc.nbatt) && E == Zeros(nc.nbatt)
      && loadShedding == Zeros(|nc.loadActive|)
      && sFrom == Zeros(nc.nbr) && sTo == Zeros(nc.nbr) && overloads == Zeros(nc.nbr)
      && rating == Scale(1.0 / nc.Sbase, nc.brRates)
      && nodalRestrictions == Zeros(nc.nbus)
    }

    /** Runs the proportional-share dispatch and stores its results; always reports success. */
    method Solve() returns (solved: bool)
      requires nc.Valid()
      modifies this
      ensures solved && Solved()
    {
      var demand := LoadDemand(nc);
      Pl := demand;
      Pg := ProportionalDispatch(Available(nc), Sum(demand));
      theta := Zeros(nc.nbus);
      Pb := Zeros(nc.nbatt);
      E := Zeros(nc.nbatt);
      loadShedding := Zeros(|nc.loadActive|);
      sFrom := Zeros(nc.nbr);
      sTo := Zeros(nc.nbr);
      overloads := Zeros(nc.nbr);
      rating := Scale(1.0 / nc.Sbase, nc.brRates);
      nodalRestrictions := Zeros(nc.nbus);
      solved := true;
    }

    // ------------------------------------------------------------ accessors

    function GeneratorPower(): (r: seq<Float>)
      reads this
    {
      TimesAll(Pg, nc.Sbase)
    }

    function BatteryPower(): (r: seq<real>)
      reads this
    {
      Scale(nc.Sbase, Pb)
    }

    function BatteryEnergy(): (r: seq<real>)
      reads this
    {
      Scale(nc.Sbase, E)
    }

    function LoadShedding(): (r: seq<real>)
      reads this
    {
      Scale(nc.Sbase, loadShedding)
    }

    function LoadPower(): (r: seq<real>)
      reads this
    {
      Scale(nc.Sbase, Pl)
    }

    function BranchPower(): (r: seq<real>)
      reads this
    {
      Scale(nc.Sbase, sFrom)
    }

    function Overloads(): (r: seq<real>)
      reads this
    {
      overloads
    }

    function ShadowPrices(): (r: seq<real>)
      reads this
    {
      nodalRestrictions
    }

    /** `s_from / rating`, element by element. */
    function Loading(): (r: seq<Float>)
      requires |sFrom| == |rating|
      reads this
    {
      Ratios(sFrom, rating)
    }

    /** `exp(-j theta)`, modelled where every angle is zero. */
    function Voltage(): (v: seq<CN.Complex>)
      requires forall k :: 0 <= k < |theta| ==> theta[k] == 0.0
      reads this
      ensures |v| == |theta|
    {
      seq(|theta|, _ => CN.One)
    }

    // ------------------------------------------------------------ what a solved object reports

    /** After solving, the generation reported in MW adds up to the active
        load in MW whenever some generator is available; generators that
        are off report zero. */
    lemma SolvedGenerationCoversLoad()
      requires Solved() && Sum(Available(nc)) != 0.0
      ensures AllFinite(GeneratorPower())
      ensures Sum(Values(GeneratorPower())) == Sum(LoadPower())
      ensures forall k :: 0 <= k < |GeneratorPower()| && !nc.generatorActive[k] ==> GeneratorPower()[k] == Num(0.0)
    {
      var avail := Available(nc);
      ScaledDispatchMeetsDemand(avail, Pl, nc.Sbase);
      forall k | 0 <= k < |GeneratorPower()| && !nc.generatorActive[k]
        ensures GeneratorPower()[k] == Num(0.0)
      {
        DispatchIsProportional(avail, Sum(Pl), k, k);
      }
    }

    /** After solving, the load reported in MW is each active load's active
        power (the per-unit round trip), and the battery, energy, shedding,
        branch-flow, overload and shadow-price reports are zero. */
    lemma SolvedReports()
      requires Solved()
      ensures |LoadPower()| == |nc.loadActive|
      ensures forall l :: 0 <= l < |nc.loadActive| ==>
                LoadPower()[l] == if nc.loadActive[l] then nc.loadPower[l].re else 0.0
      ensures BatteryPower() == Zeros(nc.nbatt) && BatteryEnergy() == Zeros(nc.nbatt)
      ensures LoadShedding() == Zeros(|nc.loadActive|) && BranchPower() == Zeros(nc.nbr)
      ensures Overloads() == Zeros(nc.nbr) && ShadowPrices() == Zeros(nc.nbus)
    {
      forall l | 0 <= l < |nc.loadActive|
        ensures LoadPower()[l] == if nc.loadActive[l] then nc.loadPower[l].re else 0.0
      {
        if nc.loadActive[l] {
          assert nc.Sbase * (nc.loadPower[l].re / nc.Sbase) == nc.loadPower[l].re;
        }
      }
    }

    /** After solving, the loading is zero wherever the rating is non-zero
        and non-finite (0/0) where it is zero. */
    lemma SolvedLoading()
      requires Solved()
      ensures |sFrom| == |rating| == nc.nbr
      ensures forall k :: 0 <= k < nc.nbr ==>
                Loading()[k] == if nc.brRates[k] != 0.0 then Num(0.0) else NonFinite
    {
      forall k | 0 <= k < nc.nbr
        ensures Loading()[k] == if nc.brRates[k] != 0.0 then Num(0.0) else NonFinite
      {
        var x := nc.brRates[k];
        assert rating[k] == 1.0 / nc.Sbase * x;
        assert 1.0 / nc.Sbase > 0.0;
        assert rating[k] == 0.0 <==> x == 0.0;
        assert sFrom[k] == 0.0;
      }
    }

    /** After solving, every bus voltage is 1 + 0j, of unit magnitude. */
    lemma SolvedVoltage()
      requires Solved()
      ensures forall k :: 0 <= k < |theta| ==> theta[k] == 0.0
      ensures |Voltage()| == nc.nbus
      ensures forall k :: 0 <= k < nc.nbus ==> Voltage()[k] == CN.One && CN.NormSq(Voltage()[k]) == 1.0
    {
    }
  }
}
