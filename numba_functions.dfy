/** The power-injection kernel over an admittance matrix in compressed
    sparse row (CSR) form: S[i] = V[i] * conj((Y V)[i] - I[i]). */
module CsrPower {
  import opened ComplexNumbers

  /** The CSR arrays of an n x n matrix can be traversed without leaving
      their bounds: at least n + 1 row pointers, the first n + 1 nondecreasing
      and starting at or after 0,
      the last one within the index and data arrays (which have equal
      length), and every column index of a stored entry below n. */
  predicate WellFormed(n: nat, Yp: seq<int>, Yj: seq<int>, Yx: seq<Complex>) {
    && |Yp| >= n + 1 && 0 <= Yp[0]
    && (forall i, k :: 0 <= i <= k <= n ==> Yp[i] <= Yp[k])
    && |Yj| == |Yx| && Yp[n] <= |Yj|
    && forall p :: 0 <= p < Yp[n] ==> 0 <= Yj[p] < n
  }

  /** The sum of Yx[p] * V[Yj[p]] over the stored entries p in [lo, hi). */
  function RowSum(Yj: seq<int>, Yx: seq<Complex>, V: seq<Complex>, lo: int, hi: int): Complex
    requires 0 <= lo <= hi <= |Yj| == |Yx|
    requires forall p :: lo <= p < hi ==> 0 <= Yj[p] < |V|
    decreases hi - lo
  {
    if hi == lo then Zero else Add(RowSum(Yj, Yx, V, lo, hi - 1), Mul(Yx[hi - 1], V[Yj[hi - 1]]))
  }

  /** The power of row i: V[i] * conj(row sum - I[i]). */
  function RowPower(n: nat, Yp: seq<int>, Yj: seq<int>, Yx: seq<Complex>, V: seq<Complex>, I: seq<Complex>, i: int): Complex
    requires WellFormed(n, Yp, Yj, Yx) && |V| == n && |I| >= n && 0 <= i < n
  {
    Mul(V[i], Conj(Sub(RowSum(Yj, Yx, V, Yp[i], Yp[i + 1]), I[i])))
  }

  /** The inner loop: accumulates the products of one row. */
  method AccumulateRow(Yj: seq<int>, Yx: seq<Complex>, V: seq<Complex>, lo: int, hi: int) returns (s: Complex)
    requires 0 <= lo <= hi <= |Yj| == |Yx|
    requires forall p :: lo <= p < hi ==> 0 <= Yj[p] < |V|
    ensures s == RowSum(Yj, Yx, V, lo, hi)
  {
    s := Zero;
    for p := lo to hi
      invariant s == RowSum(Yj, Yx, V, lo, p)
    {
      s := Add(s, Mul(Yx[p], V[Yj[p]]));
    }
  }

  /** Computes the power vector. Below `nPar` rows the loop is the serial
      one, otherwise the parallel one; both have the same body and, with the
      parallel loop taken as sequential, return the same vector. */
  method CalcPowerCsr(n: nat, Yp: seq<int>, Yj: seq<int>, Yx: seq<Complex>, V: seq<Complex>, I: seq<Complex>, nPar: int)
    returns (S: array<Complex>)
    requires WellFormed(n, Yp, Yj, Yx) && |V| == n && |I| >= n
    ensures fresh(S) && S.Length == n
    ensures forall i :: 0 <= i < n ==> S[i] == RowPower(n, Yp, Yj, Yx, V, I, i)
  {
    S := new Complex[n](_ => Zero);
    if n < nPar {
      for i := 0 to n
        invariant forall r :: 0 <= r < i ==> S[r] == RowPower(n, Yp, Yj, Yx, V, I, r)
      {
        var s := AccumulateRow(Yj, Yx, V, Yp[i], Yp[i + 1]);
        S[i] := Mul(V[i], Conj(Sub(s, I[i])));
      }
    } else {
      for i := 0 to n
        invariant forall r :: 0 <= r < i ==> S[r] == RowPower(n, Yp, Yj, Yx, V, I, r)
      {
        var s := AccumulateRow(Yj, Yx, V, Yp[i], Yp[i + 1]);
        S[i] := Mul(V[i], Conj(Sub(s, I[i])));
      }
    }
  }

  /** A row with no stored entries draws V[i] * conj(-I[i]). */
  lemma EmptyRowPower(n: nat, Yp: seq<int>, Yj: seq<int>, Yx: seq<Complex>, V: seq<Complex>, I: seq<Complex>, i: int)
    requires WellFormed(n, Yp, Yj, Yx) && |V| == n && |I| >= n && 0 <= i < n
    requires Yp[i] == Yp[i + 1]
    ensures RowPower(n, Yp, Yj, Yx, V, I, i) == Mul(V[i], Conj(Neg(I[i])))
  {
  }

  /** Two rows that store the same entries over their slices have the same sum. */
  lemma {:induction false} RowSumLocal(Yj: seq<int>, Yx: seq<Complex>, Yj': seq<int>, Yx': seq<Complex>,
                                       V: seq<Complex>, lo: int, hi: int, lo': int)
    requires 0 <= lo <= hi <= |Yj| == |Yx| && 0 <= lo' && lo' + (hi - lo) <= |Yj'| == |Yx'|
    requires forall p :: lo <= p < hi ==> 0 <= Yj[p] < |V|
    requires forall p :: lo <= p < hi ==> Yj'[p - lo + lo'] == Yj[p] && Yx'[p - lo + lo'] == Yx[p]
    ensures forall p :: lo' <= p < lo' + (hi - lo) ==> 0 <= Yj'[p] < |V|
    ensures RowSum(Yj, Yx, V, lo, hi) == RowSum(Yj', Yx', V, lo', lo' + (hi - lo))
    decreases hi - lo
  {
    forall p | lo' <= p < lo' + (hi - lo) ensures 0 <= Yj'[p] < |V| {
      assert Yj'[(p - lo' + lo) - lo + lo'] == Yj[p - lo' + lo];
    }
    if hi > lo {
      RowSumLocal(Yj, Yx, Yj', Yx', V, lo, hi - 1, lo');
      assert Yj'[hi - 1 - lo + lo'] == Yj[hi - 1] && Yx'[hi - 1 - lo + lo'] == Yx[hi - 1];
    }
  }

  /** Row i's power depends only on its own slice of Yj and Yx, on V and on
      I[i]: two matrices whose row i stores the same entries give it the same
      power, wherever the slices sit and whatever the other rows hold. */
  lemma RowPowerLocal(n: nat, Yp: seq<int>, Yj: seq<int>, Yx: seq<Complex>,
                      Yp': seq<int>, Yj': seq<int>, Yx': seq<Complex>,
                      V: seq<Complex>, I: seq<Complex>, I': seq<Complex>, i: int)
    requires WellFormed(n, Yp, Yj, Yx) && WellFormed(n, Yp', Yj', Yx')
    requires |V| == n && |I| >= n && |I'| >= n && 0 <= i < n && I[i] == I'[i]
    requires Yj[Yp[i]..Yp[i + 1]] == Yj'[Yp'[i]..Yp'[i + 1]]
    requires Yx[Yp[i]..Yp[i + 1]] == Yx'[Yp'[i]..Yp'[i + 1]]
    ensures RowPower(n, Yp, Yj, Yx, V, I, i) == RowPower(n, Yp', Yj', Yx', V, I', i)
  {
    var lo, hi, lo' := Yp[i], Yp[i + 1], Yp'[i];
    assert hi - lo == Yp'[i + 1] - lo' by {
      assert |Yj[lo..hi]| == |Yj'[lo'..Yp'[i + 1]]|;
    }
    forall p | lo <= p < hi ensures Yj'[p - lo + lo'] == Yj[p] && Yx'[p - lo + lo'] == Yx[p] {
      assert Yj[lo..hi][p - lo] == Yj'[lo'..Yp'[i + 1]][p - lo];
      assert Yx[lo..hi][p - lo] == Yx'[lo'..Yp'[i + 1]][p - lo];
    }
    RowSumLocal(Yj, Yx, Yj', Yx', V, lo, hi, lo');
  }

  // ------------------------------------------------------------ dense reference

  /** Entry (row, c) of the dense matrix a row slice [lo, hi) stands for:
      the sum of the stored values whose column index is c (repeated
      indices add up). */
  function Entry(Yj: seq<int>, Yx: seq<Complex>, lo: int, hi: int, c: int): Complex
    requires 0 <= lo <= hi <= |Yj| == |Yx|
    decreases hi - lo
  {
    if hi == lo then Zero
    else Add(Entry(Yj, Yx, lo, hi - 1, c), if Yj[hi - 1] == c then Yx[hi - 1] else Zero)
  }

  /** The dense row times V, over columns [0, m). */
  function DenseProduct(Yj: seq<int>, Yx: seq<Complex>, lo: int, hi: int, V: seq<Complex>, m: nat): Complex
    requires 0 <= lo <= hi <= |Yj| == |Yx| && m <= |V|
  {
    if m == 0 then Zero
    else Add(DenseProduct(Yj, Yx, lo, hi, V, m - 1), Mul(Entry(Yj, Yx, lo, hi, m - 1), V[m - 1]))
  }

  /** With no stored entries the dense row is zero. */
  lemma {:induction false} DenseProductEmpty(Yj: seq<int>, Yx: seq<Complex>, lo: int, V: seq<Complex>, m: nat)
    requires 0 <= lo <= |Yj| == |Yx| && m <= |V|
    ensures DenseProduct(Yj, Yx, lo, lo, V, m) == Zero
  {
    if m > 0 {
      DenseProductEmpty(Yj, Yx, lo, V, m - 1);
    }
  }

  /** Storing one more entry (column c, value x) adds x * V[c] to the dense
      product when c is among its columns. */
  lemma {:induction false} DenseProductStep(Yj: seq<int>, Yx: seq<Complex>, lo: int, hi: int, V: seq<Complex>, m: nat)
    requires 0 <= lo < hi <= |Yj| == |Yx| && m <= |V|
    requires 0 <= Yj[hi - 1] < |V|
    ensures DenseProduct(Yj, Yx, lo, hi, V, m)
            == Add(DenseProduct(Yj, Yx, lo, hi - 1, V, m), if Yj[hi - 1] < m then Mul(Yx[hi - 1], V[Yj[hi - 1]]) else Zero)
  {
    if m > 0 {
      DenseProductStep(Yj, Yx, lo, hi, V, m - 1);
      var c, x := Yj[hi - 1], Yx[hi - 1];
      var e := Entry(Yj, Yx, lo, hi - 1, m - 1);
      var d := if c == m - 1 then x else Zero;
      MulAddLeft(e, d, V[m - 1]);
      assert Mul(d, V[m - 1]) == if c == m - 1 then Mul(x, V[c]) else Zero;
    }
  }

  /** The CSR row sum is the dense row times V: the kernel computes the
      matrix-vector product (Y V)[i] of the matrix the arrays stand for. */
  lemma {:induction false} RowSumIsDenseProduct(Yj: seq<int>, Yx: seq<Complex>, V: seq<Complex>, lo: int, hi: int)
    requires 0 <= lo <= hi <= |Yj| == |Yx|
    requires forall p :: lo <= p < hi ==> 0 <= Yj[p] < |V|
    ensures RowSum(Yj, Yx, V, lo, hi) == DenseProduct(Yj, Yx, lo, hi, V, |V|)
    decreases hi - lo
  {
    if hi == lo {
      DenseProductEmpty(Yj, Yx, lo, V, |V|);
    } else {
      RowSumIsDenseProduct(Yj, Yx, V, lo, hi - 1);
      DenseProductStep(Yj, Yx, lo, hi, V, |V|);
    }
  }

  /** Row by row, the kernel's output is V * conj(Y V - I) for the dense Y. */
  lemma PowerIsDenseInjection(n: nat, Yp: seq<int>, Yj: seq<int>, Yx: seq<Complex>, V: seq<Complex>, I: seq<Complex>, i: int)
    requires WellFormed(n, Yp, Yj, Yx) && |V| == n && |I| >= n && 0 <= i < n
    ensures RowPower(n, Yp, Yj, Yx, V, I, i)
            == Mul(V[i], Conj(Sub(DenseProduct(Yj, Yx, Yp[i], Yp[i + 1], V, n), I[i])))
  {
    RowSumIsDenseProduct(Yj, Yx, V, Yp[i], Yp[i + 1]);
  }
}

