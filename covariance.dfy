/**
 Population variance-covariance matrix of finitely many jointly observed
 variables, as the Rust crate `covariance-matrix` computes it in `src/lib.rs`.
 Every observation is an exact `real`; the crate's `f64` rounding is not
 modelled.

 Two conditions the crate leaves unchecked are preconditions here:
 a sample vector is never empty (the mean divides by its length), and
 vectors that are compared have the same length (pairing them truncates to
 the shorter one).
 */
module Covariance {

  /**
   Sum of the elements. Over the reals the order of accumulation does not
   matter, so the sum is taken from the head.
   */
  function Sum(s: seq<real>): (r: real)
  {
    if s == [] then 0.0 else s[0] + Sum(s[1..])
  }

  /** Arithmetic mean: the sum divided by the number of elements. */
  function E(x: seq<real>): (r: real)
    requires |x| > 0
  {
    Sum(x) / (|x| as real)
  }

  /** Each element minus `e`, in order. */
  function MinusEach(x: seq<real>, e: real): (r: seq<real>)
    ensures |r| == |x|
    ensures forall i :: 0 <= i < |x| ==> r[i] == x[i] - e
  {
    if x == [] then [] else [x[0] - e] + MinusEach(x[1..], e)
  }

  /** Deviation vector: every element minus the mean of the vector. */
  function Dev(x: seq<real>): (d: seq<real>)
    requires |x| > 0
    ensures |d| == |x|
    ensures forall i :: 0 <= i < |x| ==> d[i] == x[i] - E(x)
  {
    var e := E(x);
    MinusEach(x, e)
  }

  /**
   Products of the elements at equal positions of `a` and `b`. Pairing stops at
   the end of the shorter sequence.
   */
  function Products(a: seq<real>, b: seq<real>): (p: seq<real>)
    ensures |p| == if |a| <= |b| then |a| else |b|
    ensures forall i :: 0 <= i < |p| ==> p[i] == a[i] * b[i]
  {
    if a == [] || b == [] then [] else [a[0] * b[0]] + Products(a[1..], b[1..])
  }

  /** Square of every element, in order. */
  function Squares(a: seq<real>): (q: seq<real>)
    ensures |q| == |a|
    ensures forall i :: 0 <= i < |a| ==> q[i] == a[i] * a[i]
  {
    if a == [] then [] else [a[0] * a[0]] + Squares(a[1..])
  }

  /** Population covariance: the mean of the products of paired deviations. */
  function Cov(x: seq<real>, y: seq<real>): (r: real)
    requires |x| > 0 && |y| == |x|
  {
    var devX := Dev(x);
    var devY := Dev(y);
    E(Products(devX, devY))
  }

  /** Population variance: the mean of the squared deviations. */
  function V(x: seq<real>): (r: real)
    requires |x| > 0
  {
    var devX := Dev(x);
    E(Squares(devX))
  }

  // ---------------------------------------------------------------------
  // Sums and means

  /** Adding `c` to every element adds `|x| * c` to the sum. */
  lemma {:induction false} SumShift(x: seq<real>, y: seq<real>, c: real)
    requires |y| == |x|
    requires forall i :: 0 <= i < |x| ==> y[i] == x[i] + c
    ensures Sum(y) == Sum(x) + (|x| as real) * c
  {
    if x != [] {
      SumShift(x[1..], y[1..], c);
    }
  }

  /** Adding from the head gives the same total as adding from the first element to the last. */
  lemma {:induction false} SumLeftToRight(s: seq<real>)
    requires |s| > 0
    ensures Sum(s) == Sum(s[..|s| - 1]) + s[|s| - 1]
  {
    if |s| > 1 {
      SumLeftToRight(s[1..]);
      assert s[1..][..|s| - 2] == s[..|s| - 1][1..];
    }
  }

  /** The sum lies between `|x| * lo` and `|x| * hi` when every element does between `lo` and `hi`. */
  lemma {:induction false} SumBounds(x: seq<real>, lo: real, hi: real)
    requires forall i :: 0 <= i < |x| ==> lo <= x[i] <= hi
    ensures (|x| as real) * lo <= Sum(x) <= (|x| as real) * hi
  {
    if x != [] {
      SumBounds(x[1..], lo, hi);
    }
  }

  /** A sum of non-negative elements is non-negative. */
  lemma {:induction false} SumNonNegative(s: seq<real>)
    requires forall i :: 0 <= i < |s| ==> 0.0 <= s[i]
    ensures 0.0 <= Sum(s)
  {
    if s != [] {
      SumNonNegative(s[1..]);
    }
  }

  /** The mean lies between any lower and upper bound of the elements; the mean of a constant vector is that constant. */
  lemma MeanBounds(x: seq<real>, lo: real, hi: real)
    requires |x| > 0
    requires forall i :: 0 <= i < |x| ==> lo <= x[i] <= hi
    ensures lo <= E(x) <= hi
  {
    SumBounds(x, lo, hi);
    var n := |x| as real;
    assert Sum(x) / n - lo == (Sum(x) - n * lo) / n;
    assert hi - Sum(x) / n == (n * hi - Sum(x)) / n;
  }

  /** The mean moves with a constant shift of every element. */
  lemma MeanShift(x: seq<real>, y: seq<real>, c: real)
    requires |x| > 0 && |y| == |x|
    requires forall i :: 0 <= i < |x| ==> y[i] == x[i] + c
    ensures E(y) == E(x) + c
  {
    SumShift(x, y, c);
    var n := |x| as real;
    assert (Sum(x) + n * c) / n == Sum(x) / n + c;
  }

  // ---------------------------------------------------------------------
  // Deviations

  /** Deviations from the mean sum to zero, so their mean is zero too. */
  lemma DevSumsToZero(x: seq<real>)
    requires |x| > 0
    ensures Sum(Dev(x)) == 0.0
    ensures E(Dev(x)) == 0.0
  {
    var n := |x| as real;
    var e := E(x);
    SumShift(x, Dev(x), -e);
    assert Sum(Dev(x)) == Sum(x) - n * e;
    assert n * e == Sum(x);
  }

  /** A constant shift of every element leaves the deviation vector unchanged. */
  lemma DevShiftInvariant(x: seq<real>, y: seq<real>, c: real)
    requires |x| > 0 && |y| == |x|
    requires forall i :: 0 <= i < |x| ==> y[i] == x[i] + c
    ensures Dev(y) == Dev(x)
  {
    MeanShift(x, y, c);
  }

  // ---------------------------------------------------------------------
  // Covariance and variance

  /** Covariance does not depend on the order of its arguments. */
  lemma CovSymmetric(x: seq<real>, y: seq<real>)
    requires |x| > 0 && |y| == |x|
    ensures Cov(x, y) == Cov(y, x)
  {
    assert Products(Dev(x), Dev(y)) == Products(Dev(y), Dev(x));
  }

  /** The covariance of a vector with itself is its variance. */
  lemma CovSelfIsVariance(x: seq<real>)
    requires |x| > 0
    ensures Cov(x, x) == V(x)
  {
    assert Products(Dev(x), Dev(x)) == Squares(Dev(x));
  }

  /** Variance is non-negative, being a mean of squares. */
  lemma VarianceNonNegative(x: seq<real>)
    requires |x| > 0
    ensures 0.0 <= V(x)
  {
    var sq := Squares(Dev(x));
    SumNonNegative(sq);
    var n := |x| as real;
    assert Sum(sq) / n >= 0.0;
  }

  /**
   Adding a constant to every element of either argument leaves the
   covariance unchanged.
   */
  lemma CovShiftInvariant(x: seq<real>, shifted: seq<real>, y: seq<real>, c: real)
    requires |x| > 0 && |shifted| == |x| && |y| == |x|
    requires forall i :: 0 <= i < |x| ==> shifted[i] == x[i] + c
    ensures Cov(shifted, y) == Cov(x, y)
    ensures Cov(y, shifted) == Cov(y, x)
  {
    DevShiftInvariant(x, shifted, c);
  }

  // ---------------------------------------------------------------------
  // The covariance matrix

  /** Sample vectors that can be paired: each non-empty, all of one length. */
  predicate Samples(x: seq<seq<real>>)
  {
    forall i :: 0 <= i < |x| ==> |x[i]| > 0 && |x[i]| == |x[0]|
  }

  /** The matrix whose entry at row `i`, column `j` is `Cov(x[i], x[j])`. */
  ghost function CovMatrix(x: seq<seq<real>>): seq<seq<real>>
    requires Samples(x)
  {
    seq(|x|, i requires 0 <= i < |x| =>
      seq(|x|, j requires 0 <= j < |x| => Cov(x[i], x[j])))
  }

  /** The covariance matrix is symmetric. */
  lemma CovMatrixSymmetric(x: seq<seq<real>>)
    requires Samples(x)
    ensures forall i, j :: 0 <= i < |x| && 0 <= j < |x| ==> CovMatrix(x)[i][j] == CovMatrix(x)[j][i]
  {
    forall i, j | 0 <= i < |x| && 0 <= j < |x|
      ensures CovMatrix(x)[i][j] == CovMatrix(x)[j][i]
    {
      CovSymmetric(x[i], x[j]);
    }
  }

  /** The diagonal of the covariance matrix holds each variable's variance, hence is non-negative. */
  lemma CovMatrixDiagonal(x: seq<seq<real>>)
    requires Samples(x)
    ensures forall i :: 0 <= i < |x| ==> CovMatrix(x)[i][i] == V(x[i]) && 0.0 <= CovMatrix(x)[i][i]
  {
    forall i | 0 <= i < |x|
      ensures CovMatrix(x)[i][i] == V(x[i]) && 0.0 <= CovMatrix(x)[i][i]
    {
      CovSelfIsVariance(x[i]);
      VarianceNonNegative(x[i]);
    }
  }

  /** A single variable gives the 1x1 matrix of its variance. */
  lemma SingleVariable(x: seq<real>)
    requires |x| > 0
    ensures CovMatrix([x]) == [[V(x)]]
  {
    CovSelfIsVariance(x);
    assert CovMatrix([x])[0] == [V(x)];
  }

  /**
   Builds the covariance matrix row by row, each row entry by entry, with
   two nested loops.
   */
  method Calc(x: seq<seq<real>>) returns (matrix: seq<seq<real>>)
    requires Samples(x)
    ensures |matrix| == |x|
    ensures forall i :: 0 <= i < |x| ==> |matrix[i]| == |x|
    ensures forall i, j :: 0 <= i < |x| && 0 <= j < |x| ==> matrix[i][j] == Cov(x[i], x[j])
    ensures matrix == CovMatrix(x)
    ensures forall i, j :: 0 <= i < |x| && 0 <= j < |x| ==> matrix[i][j] == matrix[j][i]
    ensures forall i :: 0 <= i < |x| ==> matrix[i][i] == V(x[i])
  {
    var length := |x|;
    ghost var spec := CovMatrix(x);
    matrix := [];
    for i := 0 to length
      invariant matrix == spec[..i]
    {
      var line: seq<real> := [];
      for j := 0 to length
        invariant line == spec[i][..j]
      {
        line := line + [Cov(x[i], x[j])];
      }
      assert line == spec[i];
      assert spec[..i + 1] == spec[..i] + [spec[i]];
      matrix := matrix + [line];
    }
    assert matrix == spec;
    CovMatrixSymmetric(x);
    CovMatrixDiagonal(x);
  }

  /**
   The 3x3 matrix of three variables written out: variances on the
   diagonal, each pairwise covariance computed once and placed on both
   sides of it.
   */
  function Calc3x3(x: seq<real>, y: seq<real>, z: seq<real>): (m: seq<seq<real>>)
    requires |x| > 0 && |y| == |x| && |z| == |x|
    ensures |m| == 3 && |m[0]| == 3 && |m[1]| == 3 && |m[2]| == 3
  {
    var covXY := Cov(x, y);
    var covYZ := Cov(y, z);
    var covXZ := Cov(x, z);
    [
      [V(x), covXY, covXZ],
      [covXY, V(y), covYZ],
      [covXZ, covYZ, V(z)]
    ]
  }

  /** The written-out 3x3 form agrees entry by entry with the general matrix of `[x, y, z]`. */
  lemma Calc3x3Agrees(x: seq<real>, y: seq<real>, z: seq<real>)
    requires |x| > 0 && |y| == |x| && |z| == |x|
    ensures Calc3x3(x, y, z) == CovMatrix([x, y, z])
  {
    var vs := [x, y, z];
    var cm := CovMatrix(vs);
    CovSymmetric(x, y); CovSymmetric(y, z); CovSymmetric(x, z);
    CovSelfIsVariance(x); CovSelfIsVariance(y); CovSelfIsVariance(z);
    assert cm[0] == [V(x), Cov(x, y), Cov(x, z)];
    assert cm[1] == [Cov(x, y), V(y), Cov(y, z)];
    assert cm[2] == [Cov(x, z), Cov(y, z), V(z)];
  }
}
