/**
 The reference scenario of the crate's unit test `test1`: two variables observed
 three times each. Over the reals the expected matrix holds exactly, so no
 tolerance is needed.
 */
module CovarianceTests {
  import opened Covariance

  /** The sum of three elements. */
  lemma Sum3(a: real, b: real, c: real)
    ensures Sum([a, b, c]) == a + b + c
  {
    assert [a, b, c][1..] == [b, c];
    assert [b, c][1..] == [c];
    assert [c][1..] == [];
    assert Sum([c]) == c;
    assert Sum([b, c]) == b + c;
  }

  /** Mean and deviations of three observations whose total is `3 * m`. */
  lemma MeanAndDev3(x: seq<real>, m: real)
    requires |x| == 3 && x[0] + x[1] + x[2] == 3.0 * m
    ensures E(x) == m
    ensures Dev(x) == [x[0] - m, x[1] - m, x[2] - m]
  {
    assert x == [x[0], x[1], x[2]];
    Sum3(x[0], x[1], x[2]);
  }

  /** The first test variable has mean 70 and variance 1400/3. */
  lemma ExampleX(x: seq<real>)
    requires x == [40.0, 80.0, 90.0]
    ensures Dev(x) == [-30.0, 10.0, 20.0]
    ensures V(x) == 1400.0 / 3.0
  {
    MeanAndDev3(x, 70.0);
    var sq := Squares(Dev(x));
    assert sq == [900.0, 100.0, 400.0];
    Sum3(900.0, 100.0, 400.0);
  }

  /** The second test variable has mean 90 and variance 200/3. */
  lemma ExampleY(y: seq<real>)
    requires y == [80.0, 90.0, 100.0]
    ensures Dev(y) == [-10.0, 0.0, 10.0]
    ensures V(y) == 200.0 / 3.0
  {
    MeanAndDev3(y, 90.0);
    var sq := Squares(Dev(y));
    assert sq == [100.0, 0.0, 100.0];
    Sum3(100.0, 0.0, 100.0);
  }

  /** The covariance of the two test variables is 500/3. */
  lemma ExampleCovariance(x: seq<real>, y: seq<real>)
    requires x == [40.0, 80.0, 90.0] && y == [80.0, 90.0, 100.0]
    ensures Cov(x, y) == 500.0 / 3.0
  {
    ExampleX(x);
    ExampleY(y);
    var p := Products(Dev(x), Dev(y));
    assert p == [300.0, 0.0, 200.0];
    Sum3(300.0, 0.0, 200.0);
  }

  /** The covariance matrix of the two test variables, exact over the reals. */
  lemma WorkedExample(x: seq<real>, y: seq<real>)
    requires x == [40.0, 80.0, 90.0] && y == [80.0, 90.0, 100.0]
    ensures CovMatrix([x, y]) == [[1400.0 / 3.0, 500.0 / 3.0], [500.0 / 3.0, 200.0 / 3.0]]
  {
    ExampleX(x);
    ExampleY(y);
    ExampleCovariance(x, y);
    CovSelfIsVariance(x);
    CovSelfIsVariance(y);
    CovSymmetric(x, y);
    var m := CovMatrix([x, y]);
    assert m[0] == [1400.0 / 3.0, 500.0 / 3.0];
    assert m[1] == [500.0 / 3.0, 200.0 / 3.0];
  }

  /** The unit test: the matrix `Calc` returns for the two test variables. */
  method Test1() returns (sigma: seq<seq<real>>)
    ensures sigma == [[1400.0 / 3.0, 500.0 / 3.0], [500.0 / 3.0, 200.0 / 3.0]]
  {
    var x := [40.0, 80.0, 90.0];
    var y := [80.0, 90.0, 100.0];
    sigma := Calc([x, y]);
    WorkedExample(x, y);
  }
}
