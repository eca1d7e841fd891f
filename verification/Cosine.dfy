/**
 Cosine similarity over the reals: the accumulator loop of the speaker score, and the geometry that
 makes its result a score at all. The square root is given from outside.
 */
module Cosine {

  type Vector = seq<real>

  function Root(root: real -> real, x: real): real {
    root(x)
  }

  /** A square root: never negative, and its square is the number. */
  ghost predicate IsRoot(root: real -> real) {
    forall x | x >= 0.0 :: Root(root, x) >= 0.0 && Times(Root(root, x), Root(root, x)) == x
  }

  /** A product, named so that proofs can treat it as a whole. */
  function Times(x: real, y: real): real {
    x * y
  }

  /** The inner product of the first n coordinates. */
  function Dot(a: Vector, b: Vector, n: nat): real
    requires n <= |a| && n <= |b|
  {
    if n == 0 then 0.0 else Dot(a, b, n - 1) + Times(a[n - 1], b[n - 1])
  }

  function Shared(a: Vector, b: Vector): nat {
    if |a| <= |b| then |a| else |b|
  }

  /** The product of the lengths of the first n coordinates. */
  function Lengths(root: real -> real, a: Vector, b: Vector, n: nat): real
    requires n <= |a| && n <= |b|
  {
    Times(Root(root, Dot(a, a, n)), Root(root, Dot(b, b, n)))
  }

  /** The inner product over the product of the lengths; zero when a vector has no length. */
  function Similarity(root: real -> real, a: Vector, b: Vector): real {
    Quotient(Dot(a, b, Shared(a, b)), Lengths(root, a, b, Shared(a, b)))
  }

  function Quotient(x: real, y: real): real {
    if y != 0.0 then x / y else 0.0
  }

  /** Neither negative, nor anything but the length of the first n coordinates. */
  ghost predicate IsLength(x: real, a: Vector, n: nat)
    requires n <= |a|
  {
    x >= 0.0 && Times(x, x) == Dot(a, a, n)
  }

  /** The cosine of two vectors: times both lengths it is the inner product, sign included. */
  ghost predicate IsCosine(similarity: real, a: Vector, b: Vector) {
    var n := Shared(a, b);
    forall x, y | IsLength(x, a, n) && IsLength(y, b, n) ::
      Times(similarity, Times(x, y)) == Dot(a, b, n) && (Times(x, y) == 0.0 ==> similarity == 0.0)
  }

  method CosineSimilarity(root: real -> real, a: Vector, b: Vector) returns (similarity: real)
    ensures similarity == Similarity(root, a, b)
    ensures IsRoot(root) ==> IsCosine(similarity, a, b)
  {
    if IsRoot(root) {
      SimilarityIsCosine(root, a, b);
    }
    hide IsCosine, IsRoot;
    var n := Shared(a, b);
    var dot, na, nb := 0.0, 0.0, 0.0;
    for i := 0 to n
      invariant dot == Dot(a, b, i) && na == Dot(a, a, i) && nb == Dot(b, b, i)
    {
      dot := dot + a[i] * b[i];
      na := na + a[i] * a[i];
      nb := nb + b[i] * b[i];
    }
    var denom := Root(root, na) * Root(root, nb);
    assert denom == Lengths(root, a, b, n);
    return if denom != 0.0 then dot / denom else 0.0;
  }

  // ---------- Facts about real numbers ----------

  lemma SquareIsNonNegative(x: real)
    ensures Times(x, x) >= 0.0
  {
  }

  lemma ProductOfNonNegatives(x: real, y: real)
    requires x >= 0.0 && y >= 0.0
    ensures Times(x, y) >= 0.0
  {
  }

  lemma ProductsCompare(a: real, b: real, c: real, d: real)
    requires 0.0 <= a < b && 0.0 <= c < d
    ensures a * c < b * d
  {
    assert a * c <= b * c;
    assert b * c < b * d;
  }

  /** Squares compare like the numbers do, when these are not negative. */
  lemma RootsCompare(x: real, y: real)
    requires x >= 0.0 && y >= 0.0 && Times(x, x) <= Times(y, y)
    ensures x <= y
  {
    if x > y {
      ProductsCompare(y, x, y, x);
    }
  }

  lemma SameRoots(x: real, y: real)
    requires x >= 0.0 && y >= 0.0 && Times(x, x) == Times(y, y)
    ensures x == y
  {
    RootsCompare(x, y);
    RootsCompare(y, x);
  }

  lemma RootOf(root: real -> real, x: real)
    requires IsRoot(root) && x >= 0.0
    ensures Root(root, x) >= 0.0 && Times(Root(root, x), Root(root, x)) == x
  {
  }

  // ---------- Cauchy and Schwarz ----------

  lemma {:induction false} DotWithItself(a: Vector, n: nat)
    requires n <= |a|
    ensures Dot(a, a, n) >= 0.0
  {
    if n > 0 {
      DotWithItself(a, n - 1);
      SquareIsNonNegative(a[n - 1]);
    }
  }

  lemma {:induction false} DotIsSymmetric(a: Vector, b: Vector, n: nat)
    requires n <= |a| && n <= |b|
    ensures Dot(a, b, n) == Dot(b, a, n)
  {
    if n > 0 {
      DotIsSymmetric(a, b, n - 1);
    }
  }

  /** The squared length of y * a - x * b, multiplied out. */
  function Combined(aa: real, ab: real, bb: real, x: real, y: real): real {
    y * y * aa - 2.0 * (x * y * ab) + x * x * bb
  }

  lemma {:induction false} CombinationHasLength(a: Vector, b: Vector, n: nat, x: real, y: real)
    requires n <= |a| && n <= |b|
    ensures Combined(Dot(a, a, n), Dot(a, b, n), Dot(b, b, n), x, y) >= 0.0
  {
    hide Combined, Times;
    if n == 0 {
      NothingCombined(x, y);
    } else {
      CombinationHasLength(a, b, n - 1, x, y);
      CombinationStep(Dot(a, a, n - 1), Dot(a, b, n - 1), Dot(b, b, n - 1), a[n - 1], b[n - 1], x, y);
    }
  }

  lemma NothingCombined(x: real, y: real)
    ensures Combined(0.0, 0.0, 0.0, x, y) == 0.0
  {
  }

  /** One more coordinate adds the square of its own combination. */
  lemma CombinationStep(aa: real, ab: real, bb: real, u: real, v: real, x: real, y: real)
    requires Combined(aa, ab, bb, x, y) >= 0.0
    ensures Combined(aa + Times(u, u), ab + Times(u, v), bb + Times(v, v), x, y) >= 0.0
  {
    var d := y * u - x * v;
    SquareIsNonNegative(d);
    assert d * d == y * y * (u * u) - 2.0 * (x * y * (u * v)) + x * x * (v * v);
    assert y * y * (aa + u * u) == y * y * aa + y * y * (u * u);
    assert x * y * (ab + u * v) == x * y * ab + x * y * (u * v);
    assert x * x * (bb + v * v) == x * x * bb + x * x * (v * v);
  }

  /** The square of an inner product is at most the product of the squared lengths. */
  lemma {:induction false} CauchySchwarz(a: Vector, b: Vector, n: nat)
    requires n <= |a| && n <= |b|
    ensures Times(Dot(a, b, n), Dot(a, b, n)) <= Times(Dot(a, a, n), Dot(b, b, n))
  {
    if n > 0 {
      hide Combined, Times;
      CauchySchwarz(a, b, n - 1);
      CombinationHasLength(a, b, n - 1, a[n - 1], b[n - 1]);
      CauchyStep(Dot(a, a, n - 1), Dot(a, b, n - 1), Dot(b, b, n - 1), a[n - 1], b[n - 1]);
    }
  }

  lemma CauchyStep(aa: real, ab: real, bb: real, x: real, y: real)
    requires Times(ab, ab) <= Times(aa, bb)
    requires Combined(aa, ab, bb, x, y) >= 0.0
    ensures Times(ab + Times(x, y), ab + Times(x, y)) <= Times(aa + Times(x, x), bb + Times(y, y))
  {
    assert (ab + x * y) * (ab + x * y) == ab * ab + 2.0 * (x * y * ab) + (x * y) * (x * y);
    assert (aa + x * x) * (bb + y * y) == aa * bb + y * y * aa + x * x * bb + (x * x) * (y * y);
    assert (x * y) * (x * y) == (x * x) * (y * y);
  }

  /** An inner product lies between minus and plus the product of the lengths. */
  lemma DotIsBounded(root: real -> real, a: Vector, b: Vector, n: nat)
    requires IsRoot(root) && n <= |a| && n <= |b|
    ensures Lengths(root, a, b, n) >= 0.0
    ensures -Lengths(root, a, b, n) <= Dot(a, b, n) <= Lengths(root, a, b, n)
  {
    hide IsRoot, Times;
    DotWithItself(a, n);
    DotWithItself(b, n);
    RootOf(root, Dot(a, a, n));
    RootOf(root, Dot(b, b, n));
    CauchySchwarz(a, b, n);
    BoundFromSquares(Dot(a, b, n), Root(root, Dot(a, a, n)), Root(root, Dot(b, b, n)));
  }

  lemma BoundFromSquares(d: real, x: real, y: real)
    requires x >= 0.0 && y >= 0.0 && Times(d, d) <= Times(Times(x, x), Times(y, y))
    ensures Times(x, y) >= 0.0 && -Times(x, y) <= d <= Times(x, y)
  {
    ProductOfNonNegatives(x, y);
    SquareOfProduct(x, y);
    if d >= 0.0 {
      RootsCompare(d, x * y);
    } else {
      assert (-d) * (-d) == d * d;
      RootsCompare(-d, x * y);
    }
  }

  lemma SquareOfProduct(x: real, y: real)
    ensures Times(Times(x, y), Times(x, y)) == Times(Times(x, x), Times(y, y))
  {
  }

  // ---------- What an inner product is ----------

  /** The vector of n coordinates that is one at i and zero elsewhere. */
  function Unit(n: nat, i: nat): (r: Vector)
    requires i < n
    ensures |r| == n
  {
    seq(n, j => if j == i then 1.0 else 0.0)
  }

  function Sum(a: Vector, b: Vector): (r: Vector)
    requires |a| == |b|
    ensures |r| == |a| && forall i | 0 <= i < |a| :: r[i] == a[i] + b[i]
  {
    seq(|a|, i requires 0 <= i < |a| => a[i] + b[i])
  }

  /** The inner product with a unit vector is a coordinate; being additive and homogeneous it has no other choice. */
  lemma {:induction false} DotWithUnit(a: Vector, i: nat, n: nat)
    requires i < |a| && n <= |a|
    ensures Dot(a, Unit(|a|, i), n) == if i < n then a[i] else 0.0
  {
    if n > 0 {
      DotWithUnit(a, i, n - 1);
    }
  }

  lemma {:induction false} DotIsAdditive(a: Vector, b: Vector, c: Vector, n: nat)
    requires |a| == |b| && n <= |a| && n <= |c|
    ensures Dot(Sum(a, b), c, n) == Dot(a, c, n) + Dot(b, c, n)
  {
    if n > 0 {
      hide Times;
      DotIsAdditive(a, b, c, n - 1);
      TimesDistributes(a[n - 1], b[n - 1], c[n - 1]);
    }
  }

  lemma TimesDistributes(x: real, y: real, z: real)
    ensures Times(x + y, z) == Times(x, z) + Times(y, z)
  {
  }

  // ---------- What a similarity is ----------

  lemma {:induction false} SimilarityIsCosine(root: real -> real, a: Vector, b: Vector)
    requires IsRoot(root)
    ensures IsCosine(Similarity(root, a, b), a, b)
  {
    hide IsRoot, Times, Quotient;
    var n := Shared(a, b);
    DotIsBounded(root, a, b, n);
    DotWithItself(a, n);
    DotWithItself(b, n);
    RootOf(root, Dot(a, a, n));
    RootOf(root, Dot(b, b, n));
    QuotientTimes(Dot(a, b, n), Lengths(root, a, b, n));
    forall x, y | IsLength(x, a, n) && IsLength(y, b, n)
      ensures Times(x, y) == Lengths(root, a, b, n)
    {
      SameRoots(x, Root(root, Dot(a, a, n)));
      SameRoots(y, Root(root, Dot(b, b, n)));
    }
  }

  lemma QuotientTimes(x: real, y: real)
    requires y == 0.0 ==> x == 0.0
    ensures Times(Quotient(x, y), y) == x && (y == 0.0 ==> Quotient(x, y) == 0.0)
  {
  }

  /** The similarity exceeds a threshold exactly when the inner product exceeds that part of the lengths. */
  lemma {:induction false} ExceedsWithoutDividing(root: real -> real, a: Vector, b: Vector, threshold: real)
    requires IsRoot(root) && threshold >= 0.0
    ensures var n := Shared(a, b);
      Similarity(root, a, b) > threshold <==> Dot(a, b, n) > Times(threshold, Lengths(root, a, b, n))
  {
    hide IsRoot, Times, Quotient, Lengths;
    DotIsBounded(root, a, b, Shared(a, b));
    QuotientExceeds(Dot(a, b, Shared(a, b)), Lengths(root, a, b, Shared(a, b)), threshold);
  }

  lemma QuotientExceeds(x: real, y: real, t: real)
    requires -y <= x <= y && t >= 0.0
    ensures Quotient(x, y) > t <==> x > Times(t, y)
  {
    if y > 0.0 {
      var q := x / y;
      assert x == q * y;
      if q > t {
        assert (q - t) * y > 0.0;
      } else {
        assert (t - q) * y >= 0.0;
      }
    }
  }

  lemma QuotientIsBounded(x: real, y: real)
    requires y >= 0.0 && -y <= x <= y
    ensures -1.0 <= Quotient(x, y) <= 1.0
  {
  }

  lemma {:induction false} SimilarityIsBounded(root: real -> real, a: Vector, b: Vector)
    requires IsRoot(root)
    ensures -1.0 <= Similarity(root, a, b) <= 1.0
  {
    hide IsRoot, Quotient, Lengths;
    var n := Shared(a, b);
    DotIsBounded(root, a, b, n);
    QuotientIsBounded(Dot(a, b, n), Lengths(root, a, b, n));
  }

  lemma LengthsAreSymmetric(root: real -> real, a: Vector, b: Vector, n: nat)
    requires n <= |a| && n <= |b|
    ensures Lengths(root, a, b, n) == Lengths(root, b, a, n)
  {
  }

  lemma {:induction false} SimilarityIsSymmetric(root: real -> real, a: Vector, b: Vector)
    ensures Similarity(root, a, b) == Similarity(root, b, a)
  {
    DotIsSymmetric(a, b, Shared(a, b));
    LengthsAreSymmetric(root, a, b, Shared(a, b));
  }

  function Scaled(k: real, a: Vector): (r: Vector)
    ensures |r| == |a| && forall i | 0 <= i < |a| :: r[i] == Times(k, a[i])
  {
    seq(|a|, i requires 0 <= i < |a| => Times(k, a[i]))
  }

  lemma {:induction false} DotOfScaled(k: real, a: Vector, b: Vector, n: nat)
    requires n <= |a| && n <= |b|
    ensures Dot(Scaled(k, a), b, n) == Times(k, Dot(a, b, n))
    ensures Dot(Scaled(k, a), Scaled(k, a), n) == Times(Times(k, k), Dot(a, a, n))
  {
    if n > 0 {
      hide Times;
      DotOfScaled(k, a, b, n - 1);
      ScaledTerm(k, a[n - 1], b[n - 1], Dot(a, b, n - 1), Dot(a, a, n - 1));
    }
  }

  lemma ScaledTerm(k: real, x: real, y: real, dot: real, norm: real)
    ensures Times(k, dot) + Times(Times(k, x), y) == Times(k, dot + Times(x, y))
    ensures Times(Times(k, k), norm) + Times(Times(k, x), Times(k, x)) == Times(Times(k, k), norm + Times(x, x))
  {
    assert (k * x) * y == k * (x * y);
    assert (k * x) * (k * x) == k * k * (x * x);
  }

  lemma RootOfScaled(root: real -> real, k: real, x: real)
    requires IsRoot(root) && k > 0.0 && x >= 0.0
    ensures Root(root, Times(Times(k, k), x)) == Times(k, Root(root, x))
  {
    hide IsRoot, Times;
    var r := Root(root, x);
    RootOf(root, x);
    ProductOfNonNegatives(k, k);
    ProductOfNonNegatives(Times(k, k), x);
    RootOf(root, Times(Times(k, k), x));
    ProductOfNonNegatives(k, r);
    SquareOfProduct(k, r);
    SameRoots(Root(root, Times(Times(k, k), x)), Times(k, r));
  }

  lemma QuotientCancels(k: real, x: real, y: real)
    requires k > 0.0
    ensures Quotient(Times(k, x), Times(k, y)) == Quotient(x, y)
  {
    if y != 0.0 {
      assert k * y != 0.0;
      var q := x / y;
      assert k * x == q * (k * y) by {
        assert x == q * y;
      }
    } else {
      assert k * y == 0.0;
    }
  }

  /** How loud the speaker is does not matter. */
  lemma {:induction false} SimilarityIgnoresScale(root: real -> real, k: real, a: Vector, b: Vector)
    requires IsRoot(root) && k > 0.0
    ensures Similarity(root, Scaled(k, a), b) == Similarity(root, a, b)
    ensures Similarity(root, a, Scaled(k, b)) == Similarity(root, a, b)
  {
    ScaledOnTheLeft(root, k, a, b);
    ScaledOnTheLeft(root, k, b, a);
    SimilarityIsSymmetric(root, a, Scaled(k, b));
    SimilarityIsSymmetric(root, a, b);
  }

  lemma ScaledOnTheLeft(root: real -> real, k: real, a: Vector, b: Vector)
    requires IsRoot(root) && k > 0.0
    ensures Similarity(root, Scaled(k, a), b) == Similarity(root, a, b)
  {
    hide IsRoot, Quotient, Lengths, Times;
    var n := Shared(a, b);
    DotOfScaled(k, a, b, n);
    LengthsOfScaled(root, k, a, b, n);
    QuotientCancels(k, Dot(a, b, n), Lengths(root, a, b, n));
  }

  lemma LengthsOfScaled(root: real -> real, k: real, a: Vector, b: Vector, n: nat)
    requires IsRoot(root) && k > 0.0 && n <= |a| && n <= |b|
    ensures Lengths(root, Scaled(k, a), b, n) == Times(k, Lengths(root, a, b, n))
  {
    hide IsRoot, Times;
    DotOfScaled(k, a, b, n);
    DotWithItself(a, n);
    RootOfScaled(root, k, Dot(a, a, n));
    ProductsAssociate(k, Root(root, Dot(a, a, n)), Root(root, Dot(b, b, n)));
  }

  lemma ProductsAssociate(x: real, y: real, z: real)
    ensures Times(Times(x, y), z) == Times(x, Times(y, z))
  {
  }

  /** A vector of some length is as similar to itself, at any volume, as anything can be. */
  lemma {:induction false} SimilarityWithItself(root: real -> real, k: real, a: Vector)
    requires IsRoot(root) && k > 0.0 && Dot(a, a, |a|) != 0.0
    ensures Similarity(root, a, Scaled(k, a)) == 1.0
  {
    hide Times, IsRoot;
    SimilarityIgnoresScale(root, k, a, a);
    DotWithItself(a, |a|);
    RootOf(root, Dot(a, a, |a|));
    QuotientOfItself(Dot(a, a, |a|));
  }

  lemma QuotientOfItself(x: real)
    requires x != 0.0
    ensures Quotient(x, x) == 1.0
  {
  }

  lemma {:induction false} LengthlessIsZero(a: Vector, n: nat)
    requires n <= |a|
    ensures Dot(a, a, n) == 0.0 <==> forall i | 0 <= i < n :: a[i] == 0.0
  {
    if n > 0 {
      LengthlessIsZero(a, n - 1);
      DotWithItself(a, n - 1);
      SquareIsNonNegative(a[n - 1]);
      ZeroSquare(a[n - 1]);
    }
  }

  lemma ZeroSquare(x: real)
    ensures Times(x, x) == 0.0 <==> x == 0.0
  {
    if x > 0.0 {
      ProductsCompare(0.0, x, 0.0, x);
    } else if x < 0.0 {
      ProductsCompare(0.0, -x, 0.0, -x);
      assert (-x) * (-x) == x * x;
    }
  }
}
