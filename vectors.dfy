/** Real vectors as sequences, with the numpy reductions and element-wise
    operations the dispatch formulation uses. */
module Vectors {

  /** Sum of the entries, accumulated left to right. */
  function Sum(a: seq<real>): real {
    if |a| == 0 then 0.0 else Sum(a[..|a| - 1]) + a[|a| - 1]
  }

  /** Dot product, as `(a * b).sum()`. */
  function Dot(a: seq<real>, b: seq<real>): real
    requires |a| == |b|
  {
    if |a| == 0 then 0.0 else Dot(a[..|a| - 1], b[..|b| - 1]) + a[|a| - 1] * b[|b| - 1]
  }

  function Zeros(n: nat): (r: seq<real>)
    ensures |r| == n && forall i :: 0 <= i < n ==> r[i] == 0.0
  {
    seq(n, _ => 0.0)
  }

  function Add(a: seq<real>, b: seq<real>): (r: seq<real>)
    requires |a| == |b|
    ensures |r| == |a| && forall i :: 0 <= i < |a| ==> r[i] == a[i] + b[i]
  {
    seq(|a|, i requires 0 <= i < |a| => a[i] + b[i])
  }

  function Sub(a: seq<real>, b: seq<real>): (r: seq<real>)
    requires |a| == |b|
    ensures |r| == |a| && forall i :: 0 <= i < |a| ==> r[i] == a[i] - b[i]
  {
    seq(|a|, i requires 0 <= i < |a| => a[i] - b[i])
  }

  /** Multiplication by a scalar, as `c * a`. */
  function Scale(c: real, a: seq<real>): (r: seq<real>)
    ensures |r| == |a| && forall i :: 0 <= i < |a| ==> r[i] == c * a[i]
  {
    seq(|a|, i requires 0 <= i < |a| => c * a[i])
  }

  /** Element-wise product, as `a * b` on two numpy arrays. */
  function ElemMul(a: seq<real>, b: seq<real>): (r: seq<real>)
    requires |a| == |b|
    ensures |r| == |a| && forall i :: 0 <= i < |a| ==> r[i] == a[i] * b[i]
  {
    seq(|a|, i requires 0 <= i < |a| => a[i] * b[i])
  }

  /** A boolean vector used as a 0/1 factor: `a * active`. */
  function Masked(a: seq<real>, active: seq<bool>): (r: seq<real>)
    requires |a| == |active|
    ensures |r| == |a| && forall i :: 0 <= i < |a| ==> r[i] == if active[i] then a[i] else 0.0
  {
    seq(|a|, i requires 0 <= i < |a| => if active[i] then a[i] else 0.0)
  }

  lemma {:induction false} SumZeros(n: nat)
    ensures Sum(Zeros(n)) == 0.0
  {
    if n > 0 {
      assert Zeros(n)[..n - 1] == Zeros(n - 1);
      SumZeros(n - 1);
    }
  }

  lemma {:induction false} SumAdd(a: seq<real>, b: seq<real>)
    requires |a| == |b|
    ensures Sum(Add(a, b)) == Sum(a) + Sum(b)
  {
    if |a| > 0 {
      var n := |a| - 1;
      assert Add(a, b)[..n] == Add(a[..n], b[..n]);
      SumAdd(a[..n], b[..n]);
    }
  }

  lemma {:induction false} SumSub(a: seq<real>, b: seq<real>)
    requires |a| == |b|
    ensures Sum(Sub(a, b)) == Sum(a) - Sum(b)
  {
    if |a| > 0 {
      var n := |a| - 1;
      assert Sub(a, b)[..n] == Sub(a[..n], b[..n]);
      SumSub(a[..n], b[..n]);
    }
  }

  lemma {:induction false} SumScale(c: real, a: seq<real>)
    ensures Sum(Scale(c, a)) == c * Sum(a)
  {
    if |a| > 0 {
      var n := |a| - 1;
      forall i | 0 <= i < n ensures Scale(c, a)[..n][i] == Scale(c, a[..n])[i] {
        assert a[..n][i] == a[i];
      }
      assert Scale(c, a)[..n] == Scale(c, a[..n]);
      SumScale(c, a[..n]);
      calc {
        Sum(Scale(c, a));
        c * Sum(a[..n]) + c * a[n];
        c * (Sum(a[..n]) + a[n]);
      }
    }
  }

  /** The dot product is the sum of the element-wise product. */
  lemma {:induction false} DotIsSumOfProducts(a: seq<real>, b: seq<real>)
    requires |a| == |b|
    ensures Dot(a, b) == Sum(ElemMul(a, b))
  {
    if |a| > 0 {
      var n := |a| - 1;
      forall i | 0 <= i < n ensures ElemMul(a, b)[..n][i] == ElemMul(a[..n], b[..n])[i] {
        assert a[..n][i] == a[i] && b[..n][i] == b[i];
      }
      assert ElemMul(a, b)[..n] == ElemMul(a[..n], b[..n]);
      DotIsSumOfProducts(a[..n], b[..n]);
    }
  }

  /** The dot product distributes over a sum in its second argument. */
  lemma {:induction false} DotAddRight(c: seq<real>, a: seq<real>, b: seq<real>)
    requires |c| == |a| == |b|
    ensures Dot(c, Add(a, b)) == Dot(c, a) + Dot(c, b)
  {
    if |c| > 0 {
      var n := |c| - 1;
      assert Add(a, b)[..n] == Add(a[..n], b[..n]);
      DotAddRight(c[..n], a[..n], b[..n]);
      assert c[n] * (a[n] + b[n]) == c[n] * a[n] + c[n] * b[n];
    }
  }

  /** Non-negative weights on non-negative values give a non-negative dot product. */
  lemma {:induction false} DotNonNegative(a: seq<real>, b: seq<real>)
    requires |a| == |b|
    requires forall i :: 0 <= i < |a| ==> a[i] >= 0.0 && b[i] >= 0.0
    ensures Dot(a, b) >= 0.0
  {
    if |a| > 0 {
      var n := |a| - 1;
      DotNonNegative(a[..n], b[..n]);
      assert a[n] * b[n] >= 0.0;
    }
  }

  lemma {:induction false} DotZerosRight(c: seq<real>)
    ensures Dot(c, Zeros(|c|)) == 0.0
  {
    if |c| > 0 {
      var n := |c| - 1;
      assert Zeros(|c|)[..n] == Zeros(n);
      DotZerosRight(c[..n]);
    }
  }
}
