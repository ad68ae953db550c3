/**
 * The notions both versions of the engine share: nearest centroid with its
 * tie-break, cluster membership, per-cluster sums and means, the run limits
 * and the errors a run can end with.
 */
module Clustering {
  import opened Wrappers
  import opened Vectors

  /** Iteration cap used when none is given on the command line. */
  const DEFAULT_ITERATIONS: int := 200

  /** Exclusive upper bound on the iteration cap. */
  const MAX_ITER: int := 1000

  /** The iteration cap: the one given, or DEFAULT_ITERATIONS when the argument is absent. */
  function IterationCap(iterArg: Option<int>): int {
    if iterArg.Some? then iterArg.value else DEFAULT_ITERATIONS
  }

  /** How a run can end without centroids. */
  datatype Error =
    | InvalidClusters   // "Invalid number of clusters!"
    | InvalidIteration  // "Invalid maximum iteration!"
    | TypeError         // Python only: the -1 placeholder used as a vector
    | IndexError        // Python only: indexing an empty list

  /** Every vector has exactly d coordinates. */
  predicate HasDim(vs: seq<Vector>, d: nat) {
    forall i :: 0 <= i < |vs| ==> |vs[i]| == d
  }

  /**
   * m is a nearest centroid to p, and every centroid before m is strictly
   * farther: among equally near centroids the lowest index wins.
   */
  predicate IsFirstNearest(p: Vector, cs: seq<Vector>, d: nat, m: int)
    requires |p| == d && HasDim(cs, d)
  {
    && 0 <= m < |cs|
    && (forall j :: 0 <= j < |cs| ==> SqDist(p, cs[m], d) <= SqDist(p, cs[j], d))
    && (forall j :: 0 <= j < m ==> SqDist(p, cs[m], d) < SqDist(p, cs[j], d))
  }

  /**
   * One step of the scan: with m the first nearest among the first j centroids,
   * moving to centroid j only when it is strictly nearer gives the first nearest
   * among the first j + 1.
   */
  lemma ScanStep(p: Vector, cs: seq<Vector>, d: nat, j: nat, m: int)
    requires j < |cs| && |p| == d && HasDim(cs, d)
    requires IsFirstNearest(p, cs[..j], d, m)
    ensures IsFirstNearest(p, cs[..j + 1], d,
      if SqDist(p, cs[j], d) < SqDist(p, cs[m], d) then j else m)
  {
    assert cs[..j + 1] == cs[..j] + [cs[j]];
  }

  /** At the start of the scan, centroid 0 is the first nearest among the first one. */
  lemma ScanStart(p: Vector, cs: seq<Vector>, d: nat)
    requires 0 < |cs| && |p| == d && HasDim(cs, d)
    ensures IsFirstNearest(p, cs[..1], d, 0)
  {
    assert cs[..1] == [cs[0]];
  }

  /** The index of the nearest centroid, scanning centroids in index order. */
  function Nearest(p: Vector, cs: seq<Vector>, d: nat): (m: nat)
    requires |cs| > 0 && |p| == d && HasDim(cs, d)
    ensures IsFirstNearest(p, cs, d, m)
    decreases |cs|
  {
    if |cs| == 1 then
      ScanStart(p, cs, d);
      assert cs[..1] == cs;
      0
    else
      var n := |cs| - 1;
      var m := Nearest(p, cs[..n], d);
      assert cs[..n][..n] == cs[..n];
      ScanStep(p, cs, d, n, m);
      assert cs[..n + 1] == cs;
      if SqDist(p, cs[n], d) < SqDist(p, cs[m], d) then n else m
  }

  /** The tie-break makes the nearest centroid unique. */
  lemma FirstNearestUnique(p: Vector, cs: seq<Vector>, d: nat, m1: int, m2: int)
    requires |p| == d && HasDim(cs, d)
    requires IsFirstNearest(p, cs, d, m1) && IsFirstNearest(p, cs, d, m2)
    ensures m1 == m2
  {
    // Each is at least as near as the other, so neither may come first strictly nearer.
    assert SqDist(p, cs[m1], d) <= SqDist(p, cs[m2], d);
    assert SqDist(p, cs[m2], d) <= SqDist(p, cs[m1], d);
  }

  /** Any scan that finds a first nearest centroid finds Nearest. */
  lemma IsNearest(p: Vector, cs: seq<Vector>, d: nat, m: int)
    requires |cs| > 0 && |p| == d && HasDim(cs, d)
    requires IsFirstNearest(p, cs, d, m)
    ensures m == Nearest(p, cs, d)
  {
    FirstNearestUnique(p, cs, d, m, Nearest(p, cs, d));
  }

  /** A point exactly between two centroids goes to the lower index. */
  lemma TieGoesToLowerIndex()
    ensures Nearest([0.0], [[-1.0], [1.0]], 1) == 0
  {
    assert SqDist([0.0], [-1.0], 1) == SqDist([0.0], [-1.0], 0) + Sq(0.0 - -1.0) == 1.0;
    assert SqDist([0.0], [1.0], 1) == SqDist([0.0], [1.0], 0) + Sq(0.0 - 1.0) == 1.0;
    assert [[-1.0], [1.0]][..1] == [[-1.0]];
  }

  /** The cluster index of every point: its nearest centroid. */
  function Assignment(points: seq<Vector>, cs: seq<Vector>, d: nat): (a: seq<int>)
    requires |cs| > 0 && HasDim(points, d) && HasDim(cs, d)
    ensures |a| == |points|
    ensures forall i :: 0 <= i < |points| ==> IsFirstNearest(points[i], cs, d, a[i])
  {
    seq(|points|, i requires 0 <= i < |points| => Nearest(points[i], cs, d))
  }

  /** Every assigned index names one of k clusters. */
  predicate InRange(asg: seq<int>, k: nat) {
    forall i :: 0 <= i < |asg| ==> 0 <= asg[i] < k
  }

  /** The number of the first n points assigned to cluster c. */
  function Count(asg: seq<int>, c: int, n: nat): nat
    requires n <= |asg|
  {
    if n == 0 then 0 else Count(asg, c, n - 1) + (if asg[n - 1] == c then 1 else 0)
  }

  /** Sum of coordinate j over the first n points assigned to cluster c, in point order. */
  function CoordSum(points: seq<Vector>, asg: seq<int>, c: int, j: nat, n: nat): real
    requires n <= |points| && n <= |asg|
    requires forall i :: 0 <= i < n ==> j < |points[i]|
  {
    if n == 0 then 0.0
    else CoordSum(points, asg, c, j, n - 1) + (if asg[n - 1] == c then points[n - 1][j] else 0.0)
  }

  /** The mean of the points assigned to a non-empty cluster c, coordinate by coordinate. */
  function ClusterMean(points: seq<Vector>, asg: seq<int>, c: int, d: nat): (r: Vector)
    requires |points| == |asg| && HasDim(points, d) && Count(asg, c, |points|) > 0
    ensures |r| == d
  {
    seq(d, j requires 0 <= j < d =>
      CoordSum(points, asg, c, j, |points|) / (Count(asg, c, |points|) as real))
  }

  /** The sizes of clusters 0..k-1 for the first n points, added up. */
  function SumCounts(asg: seq<int>, k: nat, n: nat): nat
    requires n <= |asg|
  {
    if k == 0 then 0 else SumCounts(asg, k - 1, n) + Count(asg, k - 1, n)
  }

  /** One more point adds one to the total exactly when its index is below k. */
  lemma {:induction false} SumCountsStep(asg: seq<int>, k: nat, n: nat)
    requires n < |asg|
    ensures SumCounts(asg, k, n + 1) == SumCounts(asg, k, n) + (if 0 <= asg[n] < k then 1 else 0)
  {
    if k > 0 {
      SumCountsStep(asg, k - 1, n);
    }
  }

  /** When every index lies in [0, k), the k cluster sizes add up to the number of points. */
  lemma {:induction false} CountsSumToN(asg: seq<int>, k: nat, n: nat)
    requires n <= |asg| && InRange(asg, k)
    ensures SumCounts(asg, k, n) == n
  {
    if n == 0 {
      ZeroCounts(asg, k);
    } else {
      CountsSumToN(asg, k, n - 1);
      SumCountsStep(asg, k, n - 1);
    }
  }

  /** No points, no members. */
  lemma {:induction false} ZeroCounts(asg: seq<int>, k: nat)
    ensures SumCounts(asg, k, 0) == 0
  {
    if k > 0 {
      ZeroCounts(asg, k - 1);
    }
  }

  /** The first n points assigned to cluster c, in point order. */
  function Members(points: seq<Vector>, asg: seq<int>, c: int, n: nat): seq<Vector>
    requires n <= |points| && n <= |asg|
  {
    if n == 0 then []
    else Members(points, asg, c, n - 1) + (if asg[n - 1] == c then [points[n - 1]] else [])
  }

  /** The positions of the first n points assigned to cluster c, in increasing order. */
  function MemberIndices(asg: seq<int>, c: int, n: nat): seq<nat>
    requires n <= |asg|
  {
    if n == 0 then []
    else MemberIndices(asg, c, n - 1) + (if asg[n - 1] == c then [n - 1] else [])
  }

  /**
   * A cluster lists exactly the points assigned to it, each once and in their
   * input order, and has as many entries as its count.
   */
  lemma {:induction false} MembersInOrder(points: seq<Vector>, asg: seq<int>, c: int, n: nat)
    requires n <= |points| && n <= |asg|
    ensures var idx := MemberIndices(asg, c, n);
      && |idx| == |Members(points, asg, c, n)| == Count(asg, c, n)
      && (forall t :: 0 <= t < |idx| ==> idx[t] < n && asg[idx[t]] == c)
      && (forall t, u :: 0 <= t < u < |idx| ==> idx[t] < idx[u])
      && (forall i :: 0 <= i < n && asg[i] == c ==> i in idx)
      && (forall t :: 0 <= t < |idx| ==> Members(points, asg, c, n)[t] == points[idx[t]])
  {
    if n > 0 {
      MembersInOrder(points, asg, c, n - 1);
    }
  }

  /** Sum of coordinate j over a list of vectors, in list order. */
  function SeqCoordSum(vs: seq<Vector>, j: nat): real
    requires forall t :: 0 <= t < |vs| ==> j < |vs[t]|
  {
    if |vs| == 0 then 0.0 else SeqCoordSum(vs[..|vs| - 1], j) + vs[|vs| - 1][j]
  }

  /** The coordinate-wise mean of a non-empty list of d-dimensional vectors. */
  function Mean(vs: seq<Vector>, d: nat): (r: Vector)
    requires |vs| > 0 && HasDim(vs, d)
    ensures |r| == d
  {
    seq(d, j requires 0 <= j < d => SeqCoordSum(vs, j) / (|vs| as real))
  }

  /** Appending a vector adds its coordinate j to the sum. */
  lemma SeqCoordSumAppend(vs: seq<Vector>, v: Vector, j: nat)
    requires forall t :: 0 <= t < |vs| ==> j < |vs[t]|
    requires j < |v|
    ensures SeqCoordSum(vs + [v], j) == SeqCoordSum(vs, j) + v[j]
  {
    assert (vs + [v])[..|vs|] == vs;
  }

  /** Summing a cluster's list gives the per-cluster sum over the assignment. */
  lemma {:induction false} MembersSum(points: seq<Vector>, asg: seq<int>, c: int, d: nat, j: nat, n: nat)
    requires n <= |points| && n <= |asg| && HasDim(points, d) && j < d
    ensures HasDim(Members(points, asg, c, n), d)
    ensures SeqCoordSum(Members(points, asg, c, n), j) == CoordSum(points, asg, c, j, n)
  {
    MembersHaveDim(points, asg, c, d, n);
    if n > 0 {
      MembersSum(points, asg, c, d, j, n - 1);
      var prev := Members(points, asg, c, n - 1);
      if asg[n - 1] == c {
        SeqCoordSumAppend(prev, points[n - 1], j);
      } else {
        assert Members(points, asg, c, n) == prev;
      }
    }
  }

  /** The members of a cluster have the points' dimension. */
  lemma {:induction false} MembersHaveDim(points: seq<Vector>, asg: seq<int>, c: int, d: nat, n: nat)
    requires n <= |points| && n <= |asg| && HasDim(points, d)
    ensures HasDim(Members(points, asg, c, n), d)
  {
    if n > 0 {
      MembersHaveDim(points, asg, c, d, n - 1);
    }
  }

  /**
   * The mean of a non-empty cluster's list of members is the per-cluster sum
   * divided by the count: the list-based and the index-based means agree.
   */
  lemma MeanOfMembers(points: seq<Vector>, asg: seq<int>, c: int, d: nat)
    requires |points| == |asg| && HasDim(points, d) && Count(asg, c, |points|) > 0
    ensures HasDim(Members(points, asg, c, |points|), d)
    ensures |Members(points, asg, c, |points|)| > 0
    ensures Mean(Members(points, asg, c, |points|), d) == ClusterMean(points, asg, c, d)
  {
    var n := |points|;
    var ms := Members(points, asg, c, n);
    MembersHaveDim(points, asg, c, d, n);
    MembersInOrder(points, asg, c, n);
    forall j | 0 <= j < d
      ensures Mean(ms, d)[j] == ClusterMean(points, asg, c, d)[j]
    {
      MembersSum(points, asg, c, d, j, n);
    }
  }
}
