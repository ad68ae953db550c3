/** Vectors of real coordinates and the (squared) Euclidean distance between them. */
module Vectors {

  /** A data point or a centroid: its coordinates in order. */
  type Vector = seq<real>

  /** Convergence threshold on the distance a centroid moves in one round. */
  const EPSILON: real := 0.001

  /** EPSILON squared: the threshold once both sides of a distance test are squared. */
  const EPSILON_SQ: real := EPSILON * EPSILON

  /** The square of a coordinate difference. */
  function Sq(x: real): (r: real)
    ensures r >= 0.0
  {
    x * x
  }

  /** A square is zero only for zero. */
  lemma SqZero(x: real)
    ensures Sq(x) == 0.0 <==> x == 0.0
  {
    if x > 0.0 {
      calc {
        Sq(x);
        x * x;
      >  { assert x * x > 0.0 * x; }
        0.0;
      }
    } else if x < 0.0 {
      calc {
        Sq(x);
        (-x) * (-x);
      >  { assert (-x) * (-x) > 0.0 * (-x); }
        0.0;
      }
    }
  }

  /**
   * Sum of the squared coordinate differences over the first d coordinates,
   * accumulated in index order: the square of the Euclidean distance.
   */
  function SqDist(a: Vector, b: Vector, d: nat): (r: real)
    requires d <= |a| && d <= |b|
    ensures r >= 0.0
  {
    if d == 0 then 0.0 else SqDist(a, b, d - 1) + Sq(a[d - 1] - b[d - 1])
  }

  /** The distance is zero exactly when the first d coordinates agree. */
  lemma {:induction false} SqDistZeroIff(a: Vector, b: Vector, d: nat)
    requires d <= |a| && d <= |b|
    ensures SqDist(a, b, d) == 0.0 <==> a[..d] == b[..d]
  {
    if d > 0 {
      SqDistZeroIff(a, b, d - 1);
      SqZero(a[d - 1] - b[d - 1]);
      assert a[..d] == a[..d - 1] + [a[d - 1]];
      assert b[..d] == b[..d - 1] + [b[d - 1]];
      if a[..d] == b[..d] {
        assert a[..d - 1] == a[..d][..d - 1] == b[..d][..d - 1] == b[..d - 1];
        assert a[d - 1] == a[..d][d - 1];
      }
    }
  }

  /** A vector is at distance zero from itself. */
  lemma SqDistSelf(a: Vector, d: nat)
    requires d <= |a|
    ensures SqDist(a, a, d) == 0.0
  {
    SqDistZeroIff(a, a, d);
  }

  /** The distance does not depend on the order of its arguments. */
  lemma {:induction false} SqDistSymmetric(a: Vector, b: Vector, d: nat)
    requires d <= |a| && d <= |b|
    ensures SqDist(a, b, d) == SqDist(b, a, d)
  {
    if d > 0 {
      SqDistSymmetric(a, b, d - 1);
      assert Sq(a[d - 1] - b[d - 1]) == Sq(b[d - 1] - a[d - 1]);
    }
  }

  /** Only the first d coordinates take part: coordinates after them are never read. */
  lemma {:induction false} SqDistPrefix(a: Vector, b: Vector, a': Vector, b': Vector, d: nat)
    requires d <= |a| && d <= |b| && d <= |a'| && d <= |b'|
    requires a[..d] == a'[..d] && b[..d] == b'[..d]
    ensures SqDist(a, b, d) == SqDist(a', b', d)
  {
    if d > 0 {
      assert a[..d - 1] == a[..d][..d - 1] == a'[..d][..d - 1] == a'[..d - 1];
      assert b[..d - 1] == b[..d][..d - 1] == b'[..d][..d - 1] == b'[..d - 1];
      assert a[d - 1] == a[..d][d - 1] == a'[d - 1];
      assert b[d - 1] == b[..d][d - 1] == b'[d - 1];
      SqDistPrefix(a, b, a', b', d - 1);
    }
  }

  /**
   * Squaring non-negative numbers keeps their order, so comparing two distances
   * through their squares gives the same answer as comparing the square roots.
   */
  lemma RootOrder(s1: real, r1: real, s2: real, r2: real)
    requires r1 >= 0.0 && r2 >= 0.0 && r1 * r1 == s1 && r2 * r2 == s2
    ensures r1 < r2 <==> s1 < s2
    ensures r1 <= r2 <==> s1 <= s2
  {
    if r1 < r2 {
      SquareIncreasing(r1, r2);
    } else if r2 < r1 {
      SquareIncreasing(r2, r1);
    }
  }

  /** On the non-negative reals, squaring is strictly increasing. */
  lemma SquareIncreasing(a: real, b: real)
    requires 0.0 <= a < b
    ensures a * a < b * b
  {
    var u, v := b - a, b + a;
    assert u * v > 0.0;
    assert b * b - a * a == u * v;
  }

  /**
   * A distance r (the root of the squared distance s) is within EPSILON exactly
   * when s is within EPSILON_SQ, for both the strict and the non-strict test.
   */
  lemma RootThreshold(s: real, r: real)
    requires r >= 0.0 && r * r == s
    ensures r <= EPSILON <==> s <= EPSILON_SQ
    ensures r < EPSILON <==> s < EPSILON_SQ
  {
    RootOrder(s, r, EPSILON_SQ, EPSILON);
  }
}
