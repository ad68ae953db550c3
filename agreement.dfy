/**
 * How the two versions relate. On the same data, a round of kmeans.py and a
 * round of kmeans.c compute the same centroids whenever no cluster is empty;
 * they differ only in the convergence test, strict in Python and not in C,
 * so a run can go on in Python one round after C has stopped. The argument
 * checks accept the same (parsed) arguments, and report different errors
 * exactly when K is out of range and a given iter is out of range, unless
 * K is positive and iter is not.
 */
module Agreement {
  import opened Wrappers
  import opened Vectors
  import opened Clustering
  import opened Iteration
  import C = KMeansC
  import Py = KMeansPy

  /** A C centroid array as the Python centroid list: every entry present. */
  function Present(cs: seq<Vector>): (r: seq<Option<Vector>>)
    ensures |r| == |cs|
    ensures forall i :: 0 <= i < |cs| ==> r[i] == Some(cs[i])
  {
    seq(|cs|, i requires 0 <= i < |cs| => Some(cs[i]))
  }

  /** Every one of the centroids cs has at least one point assigned to it. */
  predicate NoEmptyCluster(points: seq<Vector>, cs: seq<Vector>, d: nat)
    requires |cs| > 0 && HasDim(points, d) && HasDim(cs, d)
  {
    forall c :: 0 <= c < |cs| ==> Count(Assignment(points, cs, d), c, |points|) > 0
  }

  /** Python's test: every centroid moved strictly less than EPSILON. */
  predicate AllStrictlyWithin(olds: seq<Vector>, news: seq<Vector>, d: nat)
    requires |olds| == |news| && HasDim(olds, d) && HasDim(news, d)
  {
    forall c :: 0 <= c < |olds| ==> SqDist(olds[c], news[c], d) < EPSILON_SQ
  }

  /** The vectors eucDistance sees in an all-present list are the C centroids. */
  lemma AsVectorsOfPresent(cs: seq<Vector>)
    ensures Py.AsVectors(Present(cs)) == cs
  {
  }

  /**
   * With no empty cluster, a Python round from the same centroids raises
   * nothing and yields the centroids of the C round; it stops exactly when
   * every centroid moved strictly less than EPSILON.
   */
  lemma RoundsAgree(points: seq<Vector>, cs: seq<Vector>, d: nat)
    requires |cs| > 0 && HasDim(points, d) && HasDim(cs, d) && NoEmptyCluster(points, cs, d)
    ensures var news := C.Step(points, cs, d).0;
      Py.Step(points, d, Present(cs)) == (Success(Present(news)), AllStrictlyWithin(cs, news, d))
  {
    var n := |points|;
    var asg := Assignment(points, cs, d);
    var news := C.Step(points, cs, d).0;
    assert Count(asg, 0, n) > 0;
    assert n > 0;
    var ps := Present(cs);
    AsVectorsOfPresent(cs);
    assert !Py.HasPlaceholder(ps);
    var clusters := Py.Grouping(points, cs, d);
    assert Py.Assign(ps, points, d) == Success(clusters);
    var pyNews := Py.NewCentroids(clusters);
    forall c | 0 <= c < |cs|
      ensures pyNews[c] == Some(news[c])
    {
      MeanOfMembers(points, asg, c, d);
      MembersInOrder(points, asg, c, n);
      assert clusters[c] == Members(points, asg, c, n);
    }
    assert pyNews == Present(news);
    Py.FinishAllPresent(ps, pyNews, 0);
    assert Py.Finish(ps, pyNews) == Success(AllStrictlyWithin(cs, news, d));
  }

  /**
   * A C round from cs on which the versions cannot part: no cluster is empty
   * and no centroid moves by exactly EPSILON.
   */
  predicate Unambiguous(points: seq<Vector>, d: nat, cs: seq<Vector>) {
    && |cs| > 0 && HasDim(points, d) && HasDim(cs, d)
    && NoEmptyCluster(points, cs, d)
    && forall c :: 0 <= c < |cs| ==> SqDist(cs[c], C.Step(points, cs, d).0[c], d) != EPSILON_SQ
  }

  /**
   * When every round the C loop runs is unambiguous, the Python loop from the
   * same centroids runs the same number of rounds and ends on the same
   * centroids, without raising.
   */
  lemma RunsAgree(points: seq<Vector>, d: nat, cs: seq<Vector>, n: nat)
    requires forall t :: 0 <= t < Iterate(C.Round(points, d), cs, n).1 ==>
      Unambiguous(points, d, Trajectory(C.Round(points, d), cs, t))
    ensures var r := Iterate(C.Round(points, d), cs, n);
      Iterate(Py.Round(points, d), Success(Present(cs)), n) == (Success(Present(r.0)), r.1)
  {
    var f := (x: seq<Vector>) => Success(Present(x));
    forall x | Unambiguous(points, d, x)
      ensures Py.Round(points, d)(f(x)) == (f(C.Round(points, d)(x).0), C.Round(points, d)(x).1)
    {
      RoundPairs(points, d, x);
    }
    IterateSimulates(C.Round(points, d), Py.Round(points, d), f, x => Unambiguous(points, d, x), cs, n);
  }

  /** On an unambiguous round the two rounds agree, flag included. */
  lemma RoundPairs(points: seq<Vector>, d: nat, cs: seq<Vector>)
    requires Unambiguous(points, d, cs)
    ensures Py.Round(points, d)(Success(Present(cs))) ==
      (Success(Present(C.Round(points, d)(cs).0)), C.Round(points, d)(cs).1)
  {
    RoundsAgree(points, cs, d);
    var news := C.Step(points, cs, d).0;
    C.RoundIsStep(points, d, cs);
    PresentHasDim(cs, d);
    Py.RoundIsStep(points, d, Present(cs));
    FlagsAgree(cs, news, d);
  }

  /** An all-present list of d-dimensional centroids is well formed. */
  lemma PresentHasDim(cs: seq<Vector>, d: nat)
    requires HasDim(cs, d)
    ensures Py.PresentHaveDim(Present(cs), d)
  {
  }

  /** When no centroid moved by exactly EPSILON, the two convergence tests agree. */
  lemma FlagsAgree(olds: seq<Vector>, news: seq<Vector>, d: nat)
    requires |olds| == |news| && HasDim(olds, d) && HasDim(news, d)
    requires forall c :: 0 <= c < |olds| ==> SqDist(olds[c], news[c], d) != EPSILON_SQ
    ensures AllStrictlyWithin(olds, news, d) == C.AllWithin(olds, news, d)
  {
  }

  /** Python's convergence test implies C's, at any dimension. */
  lemma StrictImpliesWithin(olds: seq<Vector>, news: seq<Vector>, d: nat)
    requires |olds| == |news| && HasDim(olds, d) && HasDim(news, d)
    ensures AllStrictlyWithin(olds, news, d) ==> C.AllWithin(olds, news, d)
  {
  }

  /** A move of exactly EPSILON passes C's test and fails Python's. */
  lemma BoundaryMove()
    ensures C.AllWithin([[0.0]], [[EPSILON]], 1)
    ensures !AllStrictlyWithin([[0.0]], [[EPSILON]], 1)
  {
    var a: Vector, b: Vector := [0.0], [EPSILON];
    assert SqDist(a, b, 1) == SqDist(a, b, 0) + Sq(a[0] - b[0]);
    assert Sq(a[0] - b[0]) == EPSILON_SQ;
    assert [[0.0]][0] == a && [[EPSILON]][0] == b;
  }

  /** On already-parsed integers, both versions run on exactly the same K and iter (the default cap is in range). */
  lemma SameArgumentsAccepted(K: int, iterArg: Option<int>, N: nat)
    ensures C.Validate(K, iterArg, N).None? <==> Py.Validate(K, iterArg, N).None?
  {
  }

  /**
   * With K = 1 and iter = 1 (both positive, both out of range), C reports the
   * cluster count and Python the iteration cap; with iter = 0 both report the
   * iteration cap, since C's integer check rejects it before any range check.
   */
  lemma ErrorOrderDiffers()
    ensures C.Validate(1, Some(1), 10) == Some(InvalidClusters)
    ensures Py.Validate(1, Some(1), 10) == Some(InvalidIteration)
    ensures C.Validate(1, Some(0), 10) == Py.Validate(1, Some(0), 10) == Some(InvalidIteration)
  {
  }

  /**
   * The two versions report different errors exactly when a given iter is out
   * of range and K is out of range too, except when K is positive and iter is
   * not (then C's integer check on iter comes first, as in Python).
   */
  lemma ErrorsDifferIff(K: int, iterArg: Option<int>, N: nat)
    ensures C.Validate(K, iterArg, N) != Py.Validate(K, iterArg, N) <==>
      && iterArg.Some? && !(1 < iterArg.value < MAX_ITER)
      && !(1 < K < N)
      && (K <= 0 || iterArg.value > 0)
  {
  }
}
