/** Real arithmetic the source takes from numpy: `np.sqrt` and `x ** (1 / 3)`.
    Dafny cannot construct these over `real`, so each operation that uses one takes it
    as a function parameter together with the property that defines it. */
module RealMath {

  /** `sqrt` is a square root on the non-negative reals. */
  ghost predicate IsSqrt(sqrt: real -> real) {
    forall x :: 0.0 <= x ==> 0.0 <= sqrt(x) && sqrt(x) * sqrt(x) == x
  }

  /** `cbrt` is the real cube root on the positive reals. */
  ghost predicate IsCubeRoot(cbrt: real -> real) {
    forall x :: 0.0 < x ==> 0.0 < cbrt(x) && cbrt(x) * cbrt(x) * cbrt(x) == x
  }

  /** Multiplication behind a function symbol, so that sign facts about a product of a
      term with itself reach the solver in the same shape as the products that unfold
      from other definitions. */
  function Product(r: real, s: real): real {
    r * s
  }

  /** A product of two factors of the same sign is positive. */
  lemma ProductPositive(r: real, s: real)
    requires (0.0 < r && 0.0 < s) || (r < 0.0 && s < 0.0)
    ensures 0.0 < Product(r, s)
  {
  }

  /** A non-zero square is positive. */
  lemma SquarePositive(r: real)
    requires r != 0.0
    ensures 0.0 < Product(r, r)
  {
    ProductPositive(r, r);
  }

  /** A square is never negative. */
  lemma SquareNonNegative(r: real)
    ensures 0.0 <= Product(r, r)
  {
    if r != 0.0 {
      ProductPositive(r, r);
    }
  }

  /** The non-negative square root is unique. */
  lemma SqrtUnique(sqrt: real -> real, x: real, r: real)
    requires IsSqrt(sqrt)
    requires 0.0 <= r && r * r == x
    ensures sqrt(x) == r
  {
    var q := sqrt(x);
    assert 0.0 <= q && q * q == x;
    assert (q - r) * (q + r) == 0.0;
    if q + r == 0.0 {
      assert q == 0.0 && r == 0.0;
    } else {
      assert q - r == 0.0;
    }
  }

  /** The square root of a positive number is positive. */
  lemma SqrtPositive(sqrt: real -> real, x: real)
    requires IsSqrt(sqrt)
    requires 0.0 < x
    ensures 0.0 < sqrt(x)
  {
    var q := sqrt(x);
    assert 0.0 <= q && q * q == x;
  }

  /** The positive cube root is unique. */
  lemma CubeRootUnique(cbrt: real -> real, x: real, r: real)
    requires IsCubeRoot(cbrt)
    requires 0.0 < r && r * r * r == x
    ensures cbrt(x) == r
  {
    var q := cbrt(x);
    assert 0.0 < q && q * q * q == x;
    assert (q - r) * (q * q + q * r + r * r) == q * q * q - r * r * r;
    assert 0.0 < q * q + q * r + r * r by {
      assert 0.0 < q * q && 0.0 < q * r && 0.0 < r * r;
    }
    assert q - r == 0.0;
  }

  /** A square root is at most any non-negative bound whose square reaches the radicand. */
  lemma SqrtAtMost(sqrt: real -> real, x: real, u: real)
    requires IsSqrt(sqrt)
    requires 0.0 <= x && 0.0 <= u && x <= Product(u, u)
    ensures sqrt(x) <= u
  {
    var q := sqrt(x);
    assert 0.0 <= q && Product(q, q) == x;
    if u < q {
      assert Product(q - u, q + u) == Product(q, q) - Product(u, u);
      ProductPositive(q - u, q + u);
    }
  }

  /** A square root is at least any non-negative bound whose square stays below the
      radicand. */
  lemma SqrtAtLeast(sqrt: real -> real, x: real, l: real)
    requires IsSqrt(sqrt)
    requires 0.0 <= l && Product(l, l) <= x
    ensures l <= sqrt(x)
  {
    var q := sqrt(x);
    assert 0.0 <= q && Product(q, q) == x;
    if q < l {
      assert Product(l - q, l + q) == Product(l, l) - Product(q, q);
      ProductPositive(l - q, l + q);
    }
  }
}
