/**
 * `cosineSim` of the RAG route over exact reals. The square root is a
 * parameter: all the model knows of it is that it is non-negative where it
 * is applied.
 */
module VectorMath {

  type Vector = seq<real>

  /** The constant added to the denominator so that it is never zero. */
  const Epsilon: real := 0.000000000001

  /** A square root that never answers a non-negative argument with a negative number. */
  ghost predicate NonNegativeRoot(sqrt: real -> real) {
    forall x :: 0.0 <= x ==> 0.0 <= sqrt(x)
  }

  /** Sum of `a[i] * b[i]` over the first `n` positions, accumulated front to back. */
  function DotTo(a: Vector, b: Vector, n: nat): real
    requires n <= |a| && n <= |b|
  {
    if n == 0 then 0.0 else DotTo(a, b, n - 1) + a[n - 1] * b[n - 1]
  }

  /** Sum of `a[i] * a[i]` over the first `n` positions. */
  function SquaredNorm(a: Vector, n: nat): (r: real)
    requires n <= |a|
    ensures r >= 0.0
  {
    if n == 0 then 0.0 else SquaredNorm(a, n - 1) + a[n - 1] * a[n - 1]
  }

  /** The square root is non-negative at both squared norms the loop accumulates. */
  predicate RootsNonNegative(a: Vector, b: Vector, sqrt: real -> real)
    requires |a| <= |b|
  {
    0.0 <= sqrt(SquaredNorm(a, |a|)) && 0.0 <= sqrt(SquaredNorm(b, |a|))
  }

  /** The denominator `sqrt(normA) * sqrt(normB) + 1e-12`; the loop runs over `a`'s length. */
  function Denominator(a: Vector, b: Vector, sqrt: real -> real): (d: real)
    requires |a| <= |b| && RootsNonNegative(a, b, sqrt)
    ensures d >= Epsilon
  {
    sqrt(SquaredNorm(a, |a|)) * sqrt(SquaredNorm(b, |a|)) + Epsilon
  }

  /**
   * `cosineSim(a, b)`: the dot product over the positions of `a` divided by
   * the product of the two norms plus epsilon. The result is zero exactly
   * when the dot product is, and otherwise has its sign.
   */
  function CosineSim(a: Vector, b: Vector, sqrt: real -> real): (r: real)
    requires |a| <= |b| && RootsNonNegative(a, b, sqrt)
    ensures r == 0.0 <==> DotTo(a, b, |a|) == 0.0
    ensures r > 0.0 <==> DotTo(a, b, |a|) > 0.0
  {
    var dot, d := DotTo(a, b, |a|), Denominator(a, b, sqrt);
    DivisionSign(dot, d);
    dot / d
  }

  /** Dividing by a positive number keeps the sign. */
  lemma DivisionSign(x: real, d: real)
    requires d > 0.0
    ensures x / d == 0.0 <==> x == 0.0
    ensures x / d > 0.0 <==> x > 0.0
  {
  }

  /** The loop of `cosineSim`: three accumulators, then one division. */
  method CosineSimLoop(a: Vector, b: Vector, sqrt: real -> real) returns (r: real)
    requires |a| <= |b| && RootsNonNegative(a, b, sqrt)
    ensures r == CosineSim(a, b, sqrt)
  {
    var dot, normA, normB := 0.0, 0.0, 0.0;
    var i := 0;
    while i < |a|
      invariant 0 <= i <= |a|
      invariant dot == DotTo(a, b, i)
      invariant normA == SquaredNorm(a, i)
      invariant normB == SquaredNorm(b, i)
    {
      var x := a[i];
      var y := b[i];
      dot := dot + x * y;
      normA := normA + x * x;
      normB := normB + y * y;
      i := i + 1;
    }
    r := dot / (sqrt(normA) * sqrt(normB) + Epsilon);
  }

  lemma {:induction false} DotSymmetric(a: Vector, b: Vector, n: nat)
    requires n <= |a| && n <= |b|
    ensures DotTo(a, b, n) == DotTo(b, a, n)
  {
    if n > 0 {
      DotSymmetric(a, b, n - 1);
    }
  }

  /** Swapping the arguments swaps the two norms and keeps the dot product. */
  lemma CosineSymmetric(a: Vector, b: Vector, sqrt: real -> real)
    requires |a| == |b| && RootsNonNegative(a, b, sqrt)
    ensures RootsNonNegative(b, a, sqrt)
    ensures CosineSim(a, b, sqrt) == CosineSim(b, a, sqrt)
  {
    DotSymmetric(a, b, |a|);
    assert Denominator(a, b, sqrt) == Denominator(b, a, sqrt);
  }

  predicate IsZero(a: Vector) {
    forall i :: 0 <= i < |a| ==> a[i] == 0.0
  }

  lemma {:induction false} DotWithZero(a: Vector, b: Vector, n: nat)
    requires n <= |a| && n <= |b|
    requires IsZero(a) || IsZero(b)
    ensures DotTo(a, b, n) == 0.0
  {
    if n > 0 {
      DotWithZero(a, b, n - 1);
    }
  }

  /** An all-zero vector on either side gives similarity zero, not a division by zero. */
  lemma CosineOfZero(a: Vector, b: Vector, sqrt: real -> real)
    requires |a| <= |b| && RootsNonNegative(a, b, sqrt)
    requires IsZero(a) || IsZero(b)
    ensures CosineSim(a, b, sqrt) == 0.0
  {
    DotWithZero(a, b, |a|);
  }

  lemma {:induction false} DotSelf(a: Vector, n: nat)
    requires n <= |a|
    ensures DotTo(a, a, n) == SquaredNorm(a, n)
  {
    if n > 0 {
      DotSelf(a, n - 1);
    }
  }

  /**
   * With a square root that is exact at the squared norm `n` of `a`, the
   * similarity of `a` with itself is `n / (n + 1e-12)`: in `[0, 1)` and as
   * close to 1 as the norm is large.
   */
  lemma CosineSelf(a: Vector, sqrt: real -> real)
    requires RootsNonNegative(a, a, sqrt)
    requires sqrt(SquaredNorm(a, |a|)) * sqrt(SquaredNorm(a, |a|)) == SquaredNorm(a, |a|)
    ensures CosineSim(a, a, sqrt) == SquaredNorm(a, |a|) / (SquaredNorm(a, |a|) + Epsilon)
    ensures 0.0 <= CosineSim(a, a, sqrt) < 1.0
  {
    DotSelf(a, |a|);
  }

  function Negate(a: Vector): (r: Vector)
    ensures |r| == |a|
  {
    seq(|a|, i requires 0 <= i < |a| => -a[i])
  }

  lemma {:induction false} DotNegate(a: Vector, n: nat)
    requires n <= |a|
    ensures DotTo(a, Negate(a), n) == -DotTo(a, a, n)
    ensures SquaredNorm(Negate(a), n) == SquaredNorm(a, n)
  {
    if n > 0 {
      DotNegate(a, n - 1);
    }
  }

  /** Similarity with the opposite vector is the negated self-similarity. */
  lemma CosineOpposite(a: Vector, sqrt: real -> real)
    requires RootsNonNegative(a, a, sqrt)
    ensures RootsNonNegative(a, Negate(a), sqrt)
    ensures CosineSim(a, Negate(a), sqrt) == -CosineSim(a, a, sqrt)
  {
    DotNegate(a, |a|);
    assert Denominator(a, Negate(a), sqrt) == Denominator(a, a, sqrt);
  }
}
