/** Sums, counts and dates: the arithmetic the analytics share. Money and
    counts are mathematical reals; a calendar date is its day ordinal. */
module Numeric {

  /** A calendar date (Python `datetime.date`), as a day number: the order
      of dates is the order of their ordinals. */
  type Date = int

  function MaxDate(a: Date, b: Date): (r: Date)
    ensures r >= a && r >= b && (r == a || r == b)
  {
    if a >= b then a else b
  }

  function MinDate(a: Date, b: Date): (r: Date)
    ensures r <= a && r <= b && (r == a || r == b)
  {
    if a <= b then a else b
  }

  /** Python's `sum(xs)`, accumulated from the left as the source's loops do. */
  function Sum(xs: seq<real>): real
  {
    if |xs| == 0 then 0.0 else Sum(xs[..|xs| - 1]) + xs[|xs| - 1]
  }

  /** Every element divided by `t`. */
  function DivideAll(xs: seq<real>, t: real): (r: seq<real>)
    requires t != 0.0
    ensures |r| == |xs| && forall i :: 0 <= i < |xs| ==> r[i] == xs[i] / t
  {
    seq(|xs|, i requires 0 <= i < |xs| => xs[i] / t)
  }

  /** Every element multiplied by `c`. */
  function MultiplyAll(xs: seq<real>, c: real): (r: seq<real>)
    ensures |r| == |xs| && forall i :: 0 <= i < |xs| ==> r[i] == c * xs[i]
  {
    seq(|xs|, i requires 0 <= i < |xs| => c * xs[i])
  }

  lemma {:induction false} SumAppend(a: seq<real>, b: seq<real>)
    ensures Sum(a + b) == Sum(a) + Sum(b)
  {
    if |b| == 0 {
      assert a + b == a;
    } else {
      var n := |b| - 1;
      assert (a + b)[..|a + b| - 1] == a + b[..n];
      SumAppend(a, b[..n]);
    }
  }

  lemma {:induction false} SumNonNegative(xs: seq<real>)
    requires forall i :: 0 <= i < |xs| ==> xs[i] >= 0.0
    ensures Sum(xs) >= 0.0
  {
    if |xs| > 0 {
      SumNonNegative(xs[..|xs| - 1]);
    }
  }

  /** Each non-negative element is at most the sum. */
  lemma {:induction false} ElementAtMostSum(xs: seq<real>, k: int)
    requires forall i :: 0 <= i < |xs| ==> xs[i] >= 0.0
    requires 0 <= k < |xs|
    ensures xs[k] <= Sum(xs)
  {
    var n := |xs| - 1;
    SumNonNegative(xs[..n]);
    if k < n {
      ElementAtMostSum(xs[..n], k);
    }
  }

  lemma {:induction false} SumMultiply(xs: seq<real>, c: real)
    ensures Sum(MultiplyAll(xs, c)) == c * Sum(xs)
  {
    if |xs| > 0 {
      var n := |xs| - 1;
      var lhs, rhs := MultiplyAll(xs, c)[..n], MultiplyAll(xs[..n], c);
      assert |lhs| == |rhs| && forall i :: 0 <= i < n ==> lhs[i] == rhs[i];
      assert lhs == rhs;
      SumMultiply(xs[..n], c);
    }
  }

  lemma {:induction false} SumDivide(xs: seq<real>, t: real)
    requires t != 0.0
    ensures Sum(DivideAll(xs, t)) == Sum(xs) / t
  {
    if |xs| > 0 {
      var n := |xs| - 1;
      assert DivideAll(xs, t)[..n] == DivideAll(xs[..n], t);
      SumDivide(xs[..n], t);
      assert Sum(xs[..n]) / t + xs[n] / t == (Sum(xs[..n]) + xs[n]) / t;
    }
  }

  /** Dividing by a non-zero total makes the parts sum to one. */
  lemma SharesSumToOne(xs: seq<real>)
    requires Sum(xs) != 0.0
    ensures Sum(DivideAll(xs, Sum(xs))) == 1.0
  {
    SumDivide(xs, Sum(xs));
    assert Sum(xs) / Sum(xs) == 1.0;
  }

  /** Replacing one element changes the sum by the difference. */
  lemma {:induction false} SumUpdate(xs: seq<real>, k: int, v: real)
    requires 0 <= k < |xs|
    ensures Sum(xs[k := v]) == Sum(xs) - xs[k] + v
  {
    var n := |xs| - 1;
    if k < n {
      assert xs[k := v][..n] == xs[..n][k := v];
      SumUpdate(xs[..n], k, v);
    } else {
      assert xs[k := v][..n] == xs[..n];
    }
  }

  /** The sum of a sequence of zeros. */
  lemma {:induction false} SumZeros(xs: seq<real>)
    requires forall i :: 0 <= i < |xs| ==> xs[i] == 0.0
    ensures Sum(xs) == 0.0
  {
    if |xs| > 0 {
      SumZeros(xs[..|xs| - 1]);
    }
  }

  /** The element-wise sum of two sequences of the same length. */
  function AddAll(a: seq<real>, b: seq<real>): (r: seq<real>)
    requires |a| == |b|
    ensures |r| == |a| && forall i :: 0 <= i < |a| ==> r[i] == a[i] + b[i]
  {
    seq(|a|, i requires 0 <= i < |a| => a[i] + b[i])
  }

  lemma {:induction false} SumAddAll(a: seq<real>, b: seq<real>)
    requires |a| == |b|
    ensures Sum(AddAll(a, b)) == Sum(a) + Sum(b)
  {
    if |a| > 0 {
      var n := |a| - 1;
      assert AddAll(a, b)[..n] == AddAll(a[..n], b[..n]);
      SumAddAll(a[..n], b[..n]);
    }
  }

  /** A sequence that is another scaled by `c` sums to `c` times its sum. */
  lemma SumScaled(xs: seq<real>, ys: seq<real>, c: real)
    requires |ys| == |xs| && forall i :: 0 <= i < |xs| ==> ys[i] == c * xs[i]
    ensures Sum(ys) == c * Sum(xs)
  {
    assert ys == MultiplyAll(xs, c);
    SumMultiply(xs, c);
  }
}
