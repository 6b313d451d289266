/** The linear expressions of the DC dispatch problem, evaluated at concrete
    values in place of the LP variables: the objective, the fixed-generation
    equalities, the nodal injections and the branch-loading limits. */
module DispatchFormulation {
  import opened Vectors

  // ---------------------------------------------------------------- objective

  /** The objective: generation, battery, load-shedding and overload costs. */
  function Objective(Pg: seq<real>, Pb: seq<real>, LSlack: seq<real>, FSlack1: seq<real>, FSlack2: seq<real>,
                     costG: seq<real>, costB: seq<real>, costL: seq<real>, costBr: seq<real>): real
    requires |Pg| == |costG| && |Pb| == |costB| && |LSlack| == |costL|
    requires |FSlack1| == |FSlack2| == |costBr|
  {
    Dot(costG, Pg) + Dot(costB, Pb) + Dot(costL, LSlack) + Dot(costBr, Add(FSlack1, FSlack2))
  }

  /** The objective is the sum of the four element-wise cost products, and
      the overload term splits into one term per slack direction. */
  lemma ObjectiveTerms(Pg: seq<real>, Pb: seq<real>, LSlack: seq<real>, FSlack1: seq<real>, FSlack2: seq<real>,
                       costG: seq<real>, costB: seq<real>, costL: seq<real>, costBr: seq<real>)
    requires |Pg| == |costG| && |Pb| == |costB| && |LSlack| == |costL|
    requires |FSlack1| == |FSlack2| == |costBr|
    ensures Objective(Pg, Pb, LSlack, FSlack1, FSlack2, costG, costB, costL, costBr)
            == Sum(ElemMul(costG, Pg)) + Sum(ElemMul(costB, Pb)) + Sum(ElemMul(costL, LSlack))
               + Sum(ElemMul(costBr, Add(FSlack1, FSlack2)))
    ensures Objective(Pg, Pb, LSlack, FSlack1, FSlack2, costG, costB, costL, costBr)
            == Dot(costG, Pg) + Dot(costB, Pb) + Dot(costL, LSlack) + Dot(costBr, FSlack1) + Dot(costBr, FSlack2)
  {
    DotIsSumOfProducts(costG, Pg);
    DotIsSumOfProducts(costB, Pb);
    DotIsSumOfProducts(costL, LSlack);
    DotIsSumOfProducts(costBr, Add(FSlack1, FSlack2));
    DotAddRight(costBr, FSlack1, FSlack2);
  }

  /** Non-negative costs on non-negative quantities give a non-negative objective. */
  lemma ObjectiveNonNegative(Pg: seq<real>, Pb: seq<real>, LSlack: seq<real>, FSlack1: seq<real>, FSlack2: seq<real>,
                             costG: seq<real>, costB: seq<real>, costL: seq<real>, costBr: seq<real>)
    requires |Pg| == |costG| && |Pb| == |costB| && |LSlack| == |costL|
    requires |FSlack1| == |FSlack2| == |costBr|
    requires forall i :: 0 <= i < |Pg| ==> costG[i] >= 0.0 && Pg[i] >= 0.0
    requires forall i :: 0 <= i < |Pb| ==> costB[i] >= 0.0 && Pb[i] >= 0.0
    requires forall i :: 0 <= i < |LSlack| ==> costL[i] >= 0.0 && LSlack[i] >= 0.0
    requires forall i :: 0 <= i < |costBr| ==> costBr[i] >= 0.0 && FSlack1[i] >= 0.0 && FSlack2[i] >= 0.0
    ensures Objective(Pg, Pb, LSlack, FSlack1, FSlack2, costG, costB, costL, costBr) >= 0.0
  {
    DotNonNegative(costG, Pg);
    DotNonNegative(costB, Pb);
    DotNonNegative(costL, LSlack);
    DotNonNegative(costBr, Add(FSlack1, FSlack2));
  }

  /** Without load shedding and overloads only the generation and battery costs remain. */
  lemma ObjectiveWithoutSlack(Pg: seq<real>, Pb: seq<real>, costG: seq<real>, costB: seq<real>,
                              costL: seq<real>, costBr: seq<real>)
    requires |Pg| == |costG| && |Pb| == |costB|
    ensures Objective(Pg, Pb, Zeros(|costL|), Zeros(|costBr|), Zeros(|costBr|), costG, costB, costL, costBr)
            == Dot(costG, Pg) + Dot(costB, Pb)
  {
    assert Add(Zeros(|costBr|), Zeros(|costBr|)) == Zeros(|costBr|);
    DotZerosRight(costL);
    DotZerosRight(costBr);
  }

  // ---------------------------------------------------------------- fixed generation

  /** The positions of the generators not enabled for dispatch, in
      increasing order (numpy's `where(enabled == False)`). */
  function FixedGenerationIndices(enabled: seq<bool>): (idx: seq<nat>)
    ensures forall k :: 0 <= k < |idx| ==> idx[k] < |enabled| && !enabled[idx[k]]
    ensures forall k, l :: 0 <= k < l < |idx| ==> idx[k] < idx[l]
  {
    if |enabled| == 0 then []
    else
      var n := |enabled| - 1;
      FixedGenerationIndices(enabled[..n]) + (if enabled[n] then [] else [n])
  }

  /** Every generator not enabled for dispatch is selected, and no other. */
  lemma {:induction false} FixedGenerationIndicesExactly(enabled: seq<bool>, i: int)
    requires 0 <= i < |enabled|
    ensures i in FixedGenerationIndices(enabled) <==> !enabled[i]
  {
    var n := |enabled| - 1;
    if i < n {
      FixedGenerationIndicesExactly(enabled[..n], i);
    }
  }

  /** The fixed-generation equalities Pg[idx] == P_fix[idx]. */
  predicate FixedGeneration(Pg: seq<real>, Pfix: seq<real>, enabled: seq<bool>)
    requires |Pg| == |Pfix| == |enabled|
  {
    var idx := FixedGenerationIndices(enabled);
    forall k :: 0 <= k < |idx| ==> Pg[idx[k]] == Pfix[idx[k]]
  }

  /** The equalities pin exactly the non-dispatchable generators to their fixed output. */
  lemma FixedGenerationMeaning(Pg: seq<real>, Pfix: seq<real>, enabled: seq<bool>)
    requires |Pg| == |Pfix| == |enabled|
    ensures FixedGeneration(Pg, Pfix, enabled) <==>
            forall i :: 0 <= i < |enabled| && !enabled[i] ==> Pg[i] == Pfix[i]
  {
    var idx := FixedGenerationIndices(enabled);
    if FixedGeneration(Pg, Pfix, enabled) {
      forall i | 0 <= i < |enabled| && !enabled[i]
        ensures Pg[i] == Pfix[i]
      {
        FixedGenerationIndicesExactly(enabled, i);
        var k :| 0 <= k < |idx| && idx[k] == i;
      }
    }
  }

  // ---------------------------------------------------------------- nodal injections

  /** Every device row of a device x bus matrix has one entry per bus. */
  predicate Shape(C: seq<seq<real>>, n: nat) {
    forall g :: 0 <= g < |C| ==> |C[g]| == n
  }

  /** Column b of a device x bus matrix. */
  function Column(C: seq<seq<real>>, n: nat, b: nat): (col: seq<real>)
    requires Shape(C, n) && b < n
    ensures |col| == |C|
  {
    seq(|C|, g requires 0 <= g < |C| => C[g][b])
  }

  /** `C.transpose() @ x`: the device values weighted onto the buses. */
  function Inject(C: seq<seq<real>>, x: seq<real>, n: nat): (p: seq<real>)
    requires Shape(C, n) && |x| == |C|
    ensures |p| == n
  {
    seq(n, b requires 0 <= b < n => Dot(Column(C, n, b), x))
  }

  /** Bus injections: connected generation plus battery output minus the
      served part (Pl - LSlack) of the connected loads. */
  function PowerInjections(Cgen: seq<seq<real>>, Pg: seq<real>, Cbat: seq<seq<real>>, Pb: seq<real>,
                           Cload: seq<seq<real>>, LSlack: seq<real>, Pl: seq<real>, n: nat): (P: seq<real>)
    requires Shape(Cgen, n) && Shape(Cbat, n) && Shape(Cload, n)
    requires |Pg| == |Cgen| && |Pb| == |Cbat| && |LSlack| == |Pl| == |Cload|
    ensures |P| == n
  {
    Sub(Add(Inject(Cgen, Pg, n), Inject(Cbat, Pb, n)), Inject(Cload, Sub(Pl, LSlack), n))
  }

  /** Each device sits on buses whose weights add up to one (one 1 per row for an incidence matrix). */
  predicate RowsSumToOne(C: seq<seq<real>>) {
    forall g :: 0 <= g < |C| ==> Sum(C[g]) == 1.0
  }

  /** Weighting onto buses preserves the total when every row sums to one. */
  lemma {:induction false} InjectTotal(C: seq<seq<real>>, x: seq<real>, n: nat)
    requires Shape(C, n) && |x| == |C| && RowsSumToOne(C)
    ensures Sum(Inject(C, x, n)) == Sum(x)
  {
    if |C| == 0 {
      forall b | 0 <= b < n ensures Inject(C, x, n)[b] == Zeros(n)[b] {
      }
      assert Inject(C, x, n) == Zeros(n);
      SumZeros(n);
    } else {
      var m := |C| - 1;
      var head := Inject(C[..m], x[..m], n);
      forall b | 0 <= b < n
        ensures Inject(C, x, n)[b] == Add(head, Scale(x[m], C[m]))[b]
      {
        assert Column(C, n, b)[..m] == Column(C[..m], n, b);
      }
      assert Inject(C, x, n) == Add(head, Scale(x[m], C[m]));
      InjectTotal(C[..m], x[..m], n);
      SumAdd(head, Scale(x[m], C[m]));
      SumScale(x[m], C[m]);
    }
  }

  /** The injections over all buses add up to generation plus battery output
      minus served load. */
  lemma PowerInjectionsTotal(Cgen: seq<seq<real>>, Pg: seq<real>, Cbat: seq<seq<real>>, Pb: seq<real>,
                             Cload: seq<seq<real>>, LSlack: seq<real>, Pl: seq<real>, n: nat)
    requires Shape(Cgen, n) && Shape(Cbat, n) && Shape(Cload, n)
    requires |Pg| == |Cgen| && |Pb| == |Cbat| && |LSlack| == |Pl| == |Cload|
    requires RowsSumToOne(Cgen) && RowsSumToOne(Cbat) && RowsSumToOne(Cload)
    ensures Sum(PowerInjections(Cgen, Pg, Cbat, Pb, Cload, LSlack, Pl, n))
            == Sum(Pg) + Sum(Pb) - (Sum(Pl) - Sum(LSlack))
  {
    var g := Inject(Cgen, Pg, n);
    var bt := Inject(Cbat, Pb, n);
    var l := Inject(Cload, Sub(Pl, LSlack), n);
    InjectTotal(Cgen, Pg, n);
    InjectTotal(Cbat, Pb, n);
    InjectTotal(Cload, Sub(Pl, LSlack), n);
    SumSub(Pl, LSlack);
    SumAdd(g, bt);
    SumSub(Add(g, bt), l);
  }

  // ---------------------------------------------------------------- branch loading

  /** From-to flow B * (theta_f - theta_t) of every branch. */
  function LoadFrom(B: seq<real>, thetaF: seq<real>, thetaT: seq<real>): (loadF: seq<real>)
    requires |B| == |thetaF| == |thetaT|
    ensures |loadF| == |B|
  {
    seq(|B|, k requires 0 <= k < |B| => B[k] * (thetaF[k] - thetaT[k]))
  }

  /** To-from flow B * (theta_t - theta_f) of every branch. */
  function LoadTo(B: seq<real>, thetaF: seq<real>, thetaT: seq<real>): (loadT: seq<real>)
    requires |B| == |thetaF| == |thetaT|
    ensures |loadT| == |B|
  {
    seq(|B|, k requires 0 <= k < |B| => B[k] * (thetaT[k] - thetaF[k]))
  }

  /** The two flows of a branch are opposite. */
  lemma LoadToIsOpposite(B: seq<real>, thetaF: seq<real>, thetaT: seq<real>)
    requires |B| == |thetaF| == |thetaT|
    ensures LoadTo(B, thetaF, thetaT) == Scale(-1.0, LoadFrom(B, thetaF, thetaT))
  {
    forall k | 0 <= k < |B|
      ensures LoadTo(B, thetaF, thetaT)[k] == Scale(-1.0, LoadFrom(B, thetaF, thetaT))[k]
    {
      assert B[k] * (thetaT[k] - thetaF[k]) == -1.0 * (B[k] * (thetaF[k] - thetaT[k]));
    }
  }

  /** The two branch-rate constraints, in both senses. */
  predicate BranchLoadingHolds(loadF: seq<real>, loadT: seq<real>, rating: seq<real>,
                               FSlack1: seq<real>, FSlack2: seq<real>)
    requires |loadF| == |loadT| == |rating| == |FSlack1| == |FSlack2|
  {
    forall k :: 0 <= k < |loadF| ==> loadF[k] <= rating[k] + FSlack1[k] && loadT[k] <= rating[k] + FSlack2[k]
  }

  /** The overload of each branch beyond its rating, or zero. */
  function Overload(load: seq<real>, rating: seq<real>): (s: seq<real>)
    requires |load| == |rating|
    ensures |s| == |load|
  {
    seq(|load|, k requires 0 <= k < |load| => if load[k] > rating[k] then load[k] - rating[k] else 0.0)
  }

  /** The overloads are feasible slacks, and every feasible non-negative
      slack is at least the overload. */
  lemma OverloadIsLeastSlack(loadF: seq<real>, loadT: seq<real>, rating: seq<real>,
                             FSlack1: seq<real>, FSlack2: seq<real>)
    requires |loadF| == |loadT| == |rating| == |FSlack1| == |FSlack2|
    ensures BranchLoadingHolds(loadF, loadT, rating, Overload(loadF, rating), Overload(loadT, rating))
    ensures BranchLoadingHolds(loadF, loadT, rating, FSlack1, FSlack2) &&
            (forall k :: 0 <= k < |FSlack1| ==> FSlack1[k] >= 0.0 && FSlack2[k] >= 0.0) ==>
            forall k :: 0 <= k < |loadF| ==>
              FSlack1[k] >= Overload(loadF, rating)[k] && FSlack2[k] >= Overload(loadT, rating)[k]
  {
  }

  /** Without slack the constraints hold exactly when every flow magnitude
      is within the branch rating. */
  lemma NoSlackIffWithinRating(B: seq<real>, thetaF: seq<real>, thetaT: seq<real>, rating: seq<real>)
    requires |B| == |thetaF| == |thetaT| == |rating|
    ensures BranchLoadingHolds(LoadFrom(B, thetaF, thetaT), LoadTo(B, thetaF, thetaT), rating,
                               Zeros(|B|), Zeros(|B|)) <==>
            forall k :: 0 <= k < |B| ==>
              -rating[k] <= LoadFrom(B, thetaF, thetaT)[k] <= rating[k]
  {
    LoadToIsOpposite(B, thetaF, thetaT);
  }
}
