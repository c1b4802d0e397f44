# Variance-covariance matrix, modelled in Dafny

This project models the Rust crate `covariance-matrix`. The crate computes
the population variance-covariance matrix of N jointly observed variables:

- `E` is the arithmetic mean of a vector.
- `Dev` is the vector of deviations from that mean.
- `Cov` is the mean of the products of two paired deviation vectors.
- `V` is the mean of the squared deviations.
- `calc` fills the N×N matrix with `Cov(x[i], x[j])` using two nested loops that push onto growing vectors.
- `calc_3x3` writes the 3×3 case out by hand.

Files:

- `covariance.dfy` (module `Covariance`) models `src/lib.rs`.
  - `Sum`, `E`, `MinusEach`, `Dev`, `Products`, `Squares`, `Cov` and `V` are recursive or plain functions over `seq<real>`.
  - `CovMatrix` is the functional specification of the matrix.
  - `Calc` is a method with the same two nested loops. It is proved equal to `CovMatrix`.
  - `Calc3x3` is the written-out 3×3 form. It is proved equal to `CovMatrix([x, y, z])`.
- `covariance_tests.dfy` (module `CovarianceTests`) models the crate's unit test `test1`. It proves the expected 2×2 matrix exactly.

Modelling decisions:

- Every value is a mathematical `real`, so every identity holds exactly.
- The code does not check its inputs. The model turns the two unchecked conditions into preconditions:
  - A sample vector must be non-empty, because `E` divides by the length.
  - `Cov` requires its two vectors to have equal length.
- The pairing itself (`Products`) is modelled as the code writes it: it stops at the end of the shorter vector.
- `calc` on an empty list of vectors performs no division and returns an empty matrix. `Calc` allows this case.
- `iter().sum()` adds from first to last. `Sum` recurses on the head. Over the reals both give the same value, as `SumLeftToRight` proves.

## Model

| member | source | states |
|---|---|---|
| `Covariance.Sum` | src/lib.rs:36 | the total of the elements, `0` for an empty vector |
| `Covariance.SumLeftToRight` | src/lib.rs:36 | adding from the head gives the same total as the iterator's first-to-last accumulation |
| `Covariance.E` | src/lib.rs:35-37 | `Sum(x)` divided by the length of `x`, for non-empty `x` |
| `Covariance.SumShift` | src/lib.rs:36 | adding a constant `c` to every element adds `len * c` to the sum |
| `Covariance.SumBounds` | src/lib.rs:36 | if every element lies in `[lo, hi]`, the sum lies in `[len * lo, len * hi]` |
| `Covariance.SumNonNegative` | src/lib.rs:36 | a sum of non-negative elements is non-negative |
| `Covariance.MeanBounds` | src/lib.rs:35-37 | the mean of a non-empty vector lies between any lower and upper bound of its elements; in particular, a constant vector's mean is that constant |
| `Covariance.MeanShift` | src/lib.rs:35-37 | adding a constant to every element adds it to the mean |
| `Covariance.MinusEach` | src/lib.rs:44 | the map keeps the length, and element `i` becomes `x[i] - e` |
| `Covariance.Dev` | src/lib.rs:42-45 | the deviation vector has the input's length, and element `i` is `x[i]` minus the mean |
| `Covariance.DevSumsToZero` | src/lib.rs:42-45 | the deviations sum to zero and their mean is zero |
| `Covariance.DevShiftInvariant` | src/lib.rs:42-45 | shifting every element by a constant leaves the deviation vector unchanged |
| `Covariance.Products` | src/lib.rs:54 | zip-and-multiply yields one product per pair, truncated to the shorter input, and element `i` is `a[i] * b[i]` |
| `Covariance.Squares` | src/lib.rs:63 | squaring keeps the length, and element `i` is `a[i] * a[i]` |
| `Covariance.Cov` | src/lib.rs:50-56 | the mean of `Products(Dev(x), Dev(y))` for non-empty `x` and `y` of equal length |
| `Covariance.V` | src/lib.rs:61-65 | the mean of `Squares(Dev(x))` for non-empty `x` |
| `Covariance.CovSymmetric` | src/lib.rs:50-56 | `Cov(x, y) == Cov(y, x)` |
| `Covariance.CovSelfIsVariance` | src/lib.rs:50-65 | `Cov(x, x) == V(x)` |
| `Covariance.VarianceNonNegative` | src/lib.rs:61-65 | `V(x) >= 0` for every non-empty `x` |
| `Covariance.CovShiftInvariant` | src/lib.rs:50-56 | adding a constant to every element of either argument leaves the covariance unchanged |
| `Covariance.Samples` | src/lib.rs:6-17 | every vector is non-empty and as long as the first, which makes every `Cov(x[i], x[j])` call of `calc` defined |
| `Covariance.CovMatrix` | src/lib.rs:6-17 | the `len × len` matrix, `len` being the number of vectors, whose entry `(i, j)` is `Cov(x[i], x[j])` |
| `Covariance.CovMatrixSymmetric` | src/lib.rs:6-17 | the covariance matrix is symmetric |
| `Covariance.CovMatrixDiagonal` | src/lib.rs:6-17 | the diagonal entry `i` is the variance of variable `i`, and it is non-negative |
| `Covariance.SingleVariable` | src/lib.rs:6-17 | one variable gives the 1×1 matrix of its variance |
| `Covariance.Calc` | src/lib.rs:6-17 | the nested push loops return a `len × len` matrix whose entry `(i, j)` is `Cov(x[i], x[j])` (rows and columns follow input order); it equals `CovMatrix(x)`, is symmetric, and its diagonal holds each variance |
| `Covariance.Calc3x3` | src/lib.rs:21-30 | the hand-written form is a 3×3 matrix |
| `Covariance.Calc3x3Agrees` | src/lib.rs:21-30 | the hand-written 3×3 form equals the general matrix of `[x, y, z]` entry by entry |
| `CovarianceTests.Sum3` | src/lib.rs:75-91 | the sum of three elements is their total |
| `CovarianceTests.MeanAndDev3` | src/lib.rs:35-45 | three observations totalling `3 * m` have mean `m`, and their deviations are each minus `m` |
| `CovarianceTests.ExampleX` | src/lib.rs:77 | for `[40, 80, 90]`: deviations are `[-30, 10, 20]` and variance is 1400/3 |
| `CovarianceTests.ExampleY` | src/lib.rs:78 | for `[80, 90, 100]`: deviations are `[-10, 0, 10]` and variance is 200/3 |
| `CovarianceTests.ExampleCovariance` | src/lib.rs:77-78 | the covariance of the two test vectors is 500/3 |
| `CovarianceTests.WorkedExample` | src/lib.rs:75-91 | the covariance matrix of the two test vectors is exactly `[[1400/3, 500/3], [500/3, 200/3]]` |
| `CovarianceTests.Test1` | src/lib.rs:75-91 | `Calc` returns exactly that matrix for the two test vectors |

## Left out

- IEEE-754 `f64` rounding: values are exact reals. The test's `EPSILON = 1e-14` tolerance is therefore not needed, and the expected matrix is proved equal outright. Symmetry also holds bit-for-bit in floating point, because each product `a * b` equals `b * a`; that holds here too, but the model does not show it at the level of bits.
- The order of floating-point summation: it matters only under rounding, so `Sum` adds from the head.
- The NaN or infinity from dividing by zero on an empty vector: a precondition excludes it.
- The silent truncation when `Cov` gets vectors of different lengths: `Cov` requires equal lengths. `Products` still models the truncation itself.
- `#[inline]`, `#[allow(non_snake_case)]` and `Vec::with_capacity`: compiler and allocation hints with no effect on the result.
- Ownership and borrowing: `calc` and `calc_3x3` take their vectors by value and the helpers borrow them. Nothing is mutated, so the model passes values.
- The comments' assumption of normally distributed variables: the code uses no property of any distribution.
- Parallel computation of the matrix cells: the code computes them one after another.
