/** Jain's fairness index of an allocation. */
module Jain {
  import opened Sums

  function Total(x: seq<real>): real { if x == [] then 0.0 else Total(x[..|x| - 1]) + x[|x| - 1] }

  function Square(v: real): real { v * v }

  function SumSquares(x: seq<real>): real
  {
    if x == [] then 0.0 else SumSquares(x[..|x| - 1]) + Square(x[|x| - 1])
  }

  function Index(x: seq<real>): real
  {
    if |x| == 0 || SumSquares(x) == 0.0 then 1.0
    else
      assert |x| as real * SumSquares(x) != 0.0;
      Square(Total(x)) / (|x| as real * SumSquares(x))
  }

  method ComputeIndex(x: seq<real>) returns (index: real)
    ensures index == Index(x)
  {
    if |x| == 0 { return 1.0; }
    var sum, squares := 0.0, 0.0;
    for i := 0 to |x|
      invariant sum == Total(x[..i]) && squares == SumSquares(x[..i])
    {
      assert x[..i + 1][..i] == x[..i];
      sum, squares := sum + x[i], squares + x[i] * x[i];
    }
    assert x[..|x|] == x;
    if squares == 0.0 { return 1.0; }
    assert |x| as real * SumSquares(x) != 0.0;
    index := sum * sum / (|x| as real * squares);
  }

  ghost predicate AllNonNegative(x: seq<real>) { forall i :: 0 <= i < |x| ==> x[i] >= 0.0 }

  ghost predicate AllZero(x: seq<real>) { forall i :: 0 <= i < |x| ==> x[i] == 0.0 }

  ghost predicate AllEqual(x: seq<real>) { forall i, j :: 0 <= i < j < |x| ==> x[i] == x[j] }

  /** At most one entry is not zero. */
  ghost predicate OneShare(x: seq<real>) { forall i, j :: 0 <= i < j < |x| ==> x[i] == 0.0 || x[j] == 0.0 }

  // ------------------------------------------------------------------------------- Cauchy-Schwarz

  /** Squared distances from one value. */
  function Spread(x: seq<real>, v: real): real
  {
    if x == [] then 0.0
    else Spread(x[..|x| - 1], v) + Square(x[|x| - 1] - v)
  }

  lemma {:induction false} SpreadExpands(x: seq<real>, v: real)
    ensures Spread(x, v) == SumSquares(x) - 2.0 * Times(v, Total(x)) + Times(|x| as real, Square(v))
  {
    if x == [] {
      assert Times(v, 0.0) == 0.0 && Times(0.0, Square(v)) == 0.0;
    } else {
      hide Times, Square;
      var y, a := x[..|x| - 1], x[|x| - 1];
      SpreadExpands(y, v);
      SquareOfDifference(a, v);
      Distribute(v, Total(y), a);
      CountOneMore(|y| as real, Square(v));
      assert |x| as real == |y| as real + 1.0;
    }
  }

  lemma SquareOfDifference(a: real, v: real)
    ensures Square(a - v) == Square(a) - 2.0 * Times(v, a) + Square(v)
  {
    assert (a - v) * (a - v) == a * a - 2.0 * (v * a) + v * v;
  }

  lemma Distribute(k: real, p: real, q: real)
    ensures Times(k, p + q) == Times(k, p) + Times(k, q)
  {
  }

  lemma CountOneMore(n: real, k: real)
    ensures Times(n + 1.0, k) == Times(n, k) + k
  {
  }

  lemma SquareSign(d: real)
    ensures Square(d) >= 0.0
    ensures d != 0.0 ==> Square(d) > 0.0
    ensures d == 0.0 ==> Square(d) == 0.0
  {
    assert Square(0.0) == 0.0;
    if d > 0.0 {
      Positive(d, d);
      assert Times(d, d) == Square(d);
    } else if d < 0.0 {
      Positive(-d, -d);
      assert Times(-d, -d) == Square(d);
    }
    hide Square, Times;
  }

  lemma Positive(x: real, y: real)
    requires x > 0.0 && y > 0.0
    ensures Times(x, y) > 0.0
  {
  }

  lemma {:induction false} SpreadSign(x: seq<real>, v: real)
    ensures Spread(x, v) >= 0.0
    ensures Spread(x, v) == 0.0 <==> forall i :: 0 <= i < |x| ==> x[i] == v
  {
    if x != [] {
      var y, a := x[..|x| - 1], x[|x| - 1];
      SpreadSign(y, v);
      SquareSign(a - v);
      hide Square;
      assert forall i :: 0 <= i < |y| ==> y[i] == x[i];
    }
  }

  /** How far the square of the sum is from its largest value. */
  function Deficit(x: seq<real>): real { Times(|x| as real, SumSquares(x)) - Square(Total(x)) }

  lemma DeficitStep(x: seq<real>)
    requires x != []
    ensures Deficit(x) == Deficit(x[..|x| - 1]) + Spread(x[..|x| - 1], x[|x| - 1])
  {
    hide Times, Square;
    var y, a := x[..|x| - 1], x[|x| - 1];
    SpreadExpands(y, a);
    var n, s, q := |y| as real, Total(y), SumSquares(y);
    assert |x| as real == n + 1.0;
    CountOneMore(n, q + Square(a));
    Distribute(n, q, Square(a));
    SquareOfSumOfTwo(s, a);
  }

  lemma SquareOfSumOfTwo(s: real, a: real)
    ensures Square(s + a) == Square(s) + 2.0 * Times(a, s) + Square(a)
  {
    assert (s + a) * (s + a) == s * s + 2.0 * (a * s) + a * a;
  }

  lemma {:induction false} DeficitSign(x: seq<real>)
    ensures Deficit(x) >= 0.0
    ensures Deficit(x) == 0.0 <==> AllEqual(x)
  {
    if x != [] {
      var y, a := x[..|x| - 1], x[|x| - 1];
      DeficitSign(y);
      DeficitStep(x);
      SpreadSign(y, a);
      assert forall i :: 0 <= i < |y| ==> y[i] == x[i];
    }
  }

  // ------------------------------------------------------------------------------- the lower bound

  lemma {:induction false} SumSigns(x: seq<real>)
    requires AllNonNegative(x)
    ensures Total(x) >= 0.0 && SumSquares(x) >= 0.0
    ensures Total(x) == 0.0 <==> AllZero(x)
    ensures SumSquares(x) == 0.0 <==> AllZero(x)
  {
    if x != [] {
      var y, a := x[..|x| - 1], x[|x| - 1];
      SumSigns(y);
      SquareSign(a);
      hide Square;
      assert forall i :: 0 <= i < |y| ==> y[i] == x[i];
    }
  }

  lemma {:induction false} SquareOfSum(x: seq<real>)
    requires AllNonNegative(x)
    ensures Square(Total(x)) >= SumSquares(x)
    ensures Square(Total(x)) == SumSquares(x) <==> OneShare(x)
  {
    if x == [] {
      assert Square(0.0) == 0.0;
    } else {
      hide Square, Times;
      var y, a := x[..|x| - 1], x[|x| - 1];
      SquareOfSum(y);
      SumSigns(y);
      SquareOfSumOfTwo(Total(y), a);
      ProductSign(a, Total(y));
      assert forall i :: 0 <= i < |y| ==> y[i] == x[i];
      assert OneShare(x) <==> OneShare(y) && (AllZero(y) || a == 0.0);
    }
  }

  lemma ProductSign(a: real, s: real)
    requires a >= 0.0 && s >= 0.0
    ensures Times(a, s) >= 0.0
    ensures Times(a, s) == 0.0 <==> a == 0.0 || s == 0.0
  {
    if a > 0.0 && s > 0.0 { assert a * s > 0.0; }
  }

  // ---------------------------------------------------------------------------------- the theorem

  lemma QuotientOrder(num: real, den: real, bound: real)
    requires den > 0.0
    ensures num / den <= bound <==> num <= bound * den
    ensures num / den == bound <==> num == bound * den
  {
    assert num / den * den == num;
  }

  /** Of a non-negative allocation that is not all zero, the index lies between 1/n and 1; it is 1
      exactly when all shares are equal, and 1/n exactly when one tenant has everything. */
  lemma IndexBounds(x: seq<real>)
    requires AllNonNegative(x) && !AllZero(x)
    ensures 1.0 / |x| as real <= Index(x) <= 1.0
    ensures Index(x) == 1.0 <==> AllEqual(x)
    ensures Index(x) == 1.0 / |x| as real <==> OneShare(x)
  {
    hide SumSquares, Total, Square, Times, AllNonNegative, AllEqual, OneShare;
    SumSigns(x);
    DeficitSign(x);
    SquareOfSum(x);
    QuotientBounds(|x| as real, Square(Total(x)), SumSquares(x));
  }

  lemma QuotientBounds(n: real, s: real, q: real)
    requires n >= 1.0 && q > 0.0 && q <= s <= Times(n, q)
    ensures n * q > 0.0 && 1.0 / n <= s / (n * q) <= 1.0
    ensures s / (n * q) == 1.0 <==> s == Times(n, q)
    ensures s / (n * q) == 1.0 / n <==> s == q
  {
    var d := n * q;
    assert d > 0.0;
    QuotientOrder(s, d, 1.0);
    assert 1.0 / n * d == q by { assert 1.0 / n * n == 1.0; assert 1.0 / n * (n * q) == (1.0 / n * n) * q; }
    QuotientOrder(s, d, 1.0 / n);
    QuotientOrder(q, d, 1.0 / n);
  }

  function Scaled(x: seq<real>, c: real): (y: seq<real>)
    ensures |y| == |x| && forall i :: 0 <= i < |x| ==> y[i] == c * x[i]
  {
    seq(|x|, i requires 0 <= i < |x| => c * x[i])
  }

  lemma {:induction false} ScaledSums(x: seq<real>, c: real)
    ensures Total(Scaled(x, c)) == Times(c, Total(x)) && SumSquares(Scaled(x, c)) == Times(Square(c), SumSquares(x))
  {
    if x == [] {
      assert Times(c, 0.0) == 0.0 && Times(Square(c), 0.0) == 0.0;
    } else {
      var y, a := x[..|x| - 1], x[|x| - 1];
      ScaledSums(y, c);
      var sx, sy := Scaled(x, c), Scaled(y, c);
      assert forall i :: 0 <= i < |y| ==> y[i] == x[i] && sx[i] == sy[i];
      assert sx[..|x| - 1] == sy && sx[|x| - 1] == Times(c, a);
      hide Times, Square, Scaled;
      SquareOfProduct(c, a);
      Distribute(Square(c), SumSquares(y), Square(a));
      Distribute(c, Total(y), a);
    }
  }

  lemma SquareOfProduct(c: real, a: real)
    ensures Square(Times(c, a)) == Times(Square(c), Square(a))
  {
    assert (c * a) * (c * a) == (c * c) * (a * a);
  }

  /** The index does not change when every share is multiplied by the same positive number. */
  lemma IndexIsScaleFree(x: seq<real>, c: real)
    requires c > 0.0
    ensures Index(Scaled(x, c)) == Index(x)
  {
    hide Total, SumSquares, Scaled, Square;
    ScaledSums(x, c);
    SquareSign(c);
    ZeroProduct(Square(c), SumSquares(x));
    if |x| > 0 && SumSquares(x) != 0.0 {
      SameQuotient(|x| as real, Total(x), SumSquares(x), c);
    }
  }

  lemma SameQuotient(n: real, s: real, q: real, c: real)
    requires n > 0.0 && q != 0.0 && c > 0.0
    ensures n * q != 0.0 && n * Times(Square(c), q) != 0.0
    ensures Square(Times(c, s)) / (n * Times(Square(c), q)) == Square(s) / (n * q)
  {
    hide Square, Times;
    SquareSign(c);
    SquareOfProduct(c, s);
    ZeroProduct(n, q);
    Swap(n, Square(c), q);
    CancelFactor(Square(s), n * q, Square(c));
  }

  lemma Swap(n: real, k: real, q: real)
    ensures n * Times(k, q) == Times(k, n * q)
  {
  }

  lemma ZeroProduct(k: real, q: real)
    requires k > 0.0
    ensures k * q == 0.0 <==> q == 0.0
    ensures Times(k, q) == 0.0 <==> q == 0.0
  {
    if q > 0.0 { assert k * q > 0.0; } else if q < 0.0 { assert k * -q > 0.0; }
  }

  lemma CancelFactor(num: real, den: real, k: real)
    requires den != 0.0 && k > 0.0
    ensures Times(k, den) != 0.0 && Times(k, num) / Times(k, den) == num / den
  {
    var r := num / den;
    assert r * den == num;
    assert r * (k * den) == k * num;
    assert (k * num) / (k * den) * (k * den) == k * num;
    assert ((k * num) / (k * den) - r) * (k * den) == 0.0;
  }
}
