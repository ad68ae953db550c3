/**
 * A run on which the two versions part. On the points 0, 10 and 0.002 with
 * K = 2 the seeds are 0 and 10; the first round moves centroid 0 to 0.001,
 * exactly EPSILON. In exact arithmetic, the C loop counts that as converged
 * and stops after one round; the Python loop does not, runs a second round
 * (which moves nothing) and stops after two, on the same centroids.
 */
module Boundary {
  import opened Wrappers
  import opened Vectors
  import opened Clustering
  import opened Iteration
  import C = KMeansC
  import Py = KMeansPy
  import opened Agreement

  /** The example's points, its seeds (the first two points) and the centroids after one round. */
  predicate Example(ps: seq<Vector>, seeds: seq<Vector>, moved: seq<Vector>) {
    && ps == [[0.0], [10.0], [0.002]]
    && seeds == [[0.0], [10.0]]
    && moved == [[0.001], [10.0]]
  }

  /** In one dimension the distance is the squared gap. */
  lemma SqDist1(a: Vector, b: Vector)
    requires |a| == 1 && |b| == 1
    ensures SqDist(a, b, 1) == Sq(a[0] - b[0])
  {
  }

  /** With two one-dimensional centroids, the nearest is decided by the squared coordinate gaps. */
  lemma NearestOfTwo(p: Vector, cs: seq<Vector>, m: nat)
    requires |p| == 1 && |cs| == 2 && |cs[0]| == 1 && |cs[1]| == 1 && m < 2
    requires m == 0 ==> Sq(p[0] - cs[0][0]) <= Sq(p[0] - cs[1][0])
    requires m == 1 ==> Sq(p[0] - cs[1][0]) < Sq(p[0] - cs[0][0])
    ensures Nearest(p, cs, 1) == m
  {
    SqDist1(p, cs[0]);
    SqDist1(p, cs[1]);
    IsNearest(p, cs, 1, m);
  }

  /** From either centroid list, 0 and 0.002 go to centroid 0 and 10 to centroid 1. */
  lemma Assigned(ps: seq<Vector>, seeds: seq<Vector>, moved: seq<Vector>, cs: seq<Vector>)
    requires Example(ps, seeds, moved) && (cs == seeds || cs == moved)
    ensures Assignment(ps, cs, 1) == [0, 1, 0]
  {
    var c0 := cs[0][0];
    assert cs[1][0] == 10.0;
    if cs == seeds {
      assert c0 == 0.0;
      assert Sq(0.0 - c0) == 0.0 && Sq(10.0 - c0) == 100.0 && Sq(0.002 - c0) == 0.000004;
    } else {
      assert c0 == 0.001;
      assert Sq(0.0 - c0) == 0.000001 && Sq(10.0 - c0) == 99.980001 && Sq(0.002 - c0) == 0.000001;
    }
    assert Sq(0.0 - 10.0) == 100.0 && Sq(10.0 - 10.0) == 0.0 && Sq(0.002 - 10.0) == 99.960004;
    NearestOfTwo(ps[0], cs, 0);
    NearestOfTwo(ps[1], cs, 1);
    NearestOfTwo(ps[2], cs, 0);
  }

  /** Cluster 0 holds 0 and 0.002, cluster 1 holds 10. */
  lemma Means(ps: seq<Vector>, asg: seq<int>)
    requires ps == [[0.0], [10.0], [0.002]] && asg == [0, 1, 0]
    ensures Count(asg, 0, 3) == 2 && Count(asg, 1, 3) == 1
    ensures ClusterMean(ps, asg, 0, 1) == [0.001]
    ensures ClusterMean(ps, asg, 1, 1) == [10.0]
  {
    assert asg[0] == 0 && asg[1] == 1 && asg[2] == 0;
    assert Count(asg, 0, 0) == 0 && Count(asg, 1, 0) == 0;
    assert Count(asg, 0, 1) == 1 && Count(asg, 0, 2) == 1;
    assert Count(asg, 1, 1) == 0 && Count(asg, 1, 2) == 1;
    assert CoordSum(ps, asg, 0, 0, 1) == 0.0 && CoordSum(ps, asg, 0, 0, 2) == 0.0;
    assert CoordSum(ps, asg, 0, 0, 3) == 0.002;
    assert ps[0][0] == 0.0 && ps[1][0] == 10.0 && ps[2][0] == 0.002;
    assert CoordSum(ps, asg, 1, 0, 0) == 0.0 && CoordSum(ps, asg, 0, 0, 0) == 0.0;
    assert CoordSum(ps, asg, 1, 0, 1) == 0.0 && CoordSum(ps, asg, 1, 0, 2) == 10.0;
    assert CoordSum(ps, asg, 1, 0, 3) == 10.0;
  }

  /** The update from the assignment 0, 1, 0 gives 0.001 and 10, whatever the old centroids. */
  lemma UpdatedFromAssignment(ps: seq<Vector>, asg: seq<int>, cs: seq<Vector>, moved: seq<Vector>)
    requires ps == [[0.0], [10.0], [0.002]] && asg == [0, 1, 0] && moved == [[0.001], [10.0]]
    requires |cs| == 2 && HasDim(cs, 1)
    ensures C.UpdatedCentroids(ps, asg, cs, 1) == moved
    ensures forall c :: 0 <= c < |cs| ==> Count(asg, c, |ps|) > 0
  {
    Means(ps, asg);
    var news := C.UpdatedCentroids(ps, asg, cs, 1);
    assert news[0] == moved[0];
    assert news[1] == moved[1];
  }

  /** A C round is determined by its assignment and the update from it. */
  lemma StepFrom(points: seq<Vector>, cs: seq<Vector>, d: nat, asg: seq<int>, news: seq<Vector>)
    requires |cs| > 0 && HasDim(points, d) && HasDim(cs, d)
    requires Assignment(points, cs, d) == asg
    requires C.UpdatedCentroids(points, asg, cs, d) == news
    requires forall c :: 0 <= c < |cs| ==> Count(asg, c, |points|) > 0
    ensures C.Step(points, cs, d).0 == news
    ensures NoEmptyCluster(points, cs, d)
  {
  }

  /** Both rounds produce the centroids 0.001 and 10, with no cluster empty. */
  lemma Updated(ps: seq<Vector>, seeds: seq<Vector>, moved: seq<Vector>, cs: seq<Vector>)
    requires Example(ps, seeds, moved) && (cs == seeds || cs == moved)
    ensures C.Step(ps, cs, 1).0 == moved
    ensures NoEmptyCluster(ps, cs, 1)
  {
    var asg := [0, 1, 0];
    Assigned(ps, seeds, moved, cs);
    UpdatedFromAssignment(ps, asg, cs, moved);
    StepFrom(ps, cs, 1, asg, moved);
  }

  /** The moves of the two rounds: exactly EPSILON for centroid 0 in the first, nothing in the second. */
  lemma Moves(ps: seq<Vector>, seeds: seq<Vector>, moved: seq<Vector>)
    requires Example(ps, seeds, moved)
    ensures C.AllWithin(seeds, moved, 1) && !AllStrictlyWithin(seeds, moved, 1)
    ensures AllStrictlyWithin(moved, moved, 1)
  {
    SqDist1(seeds[0], moved[0]);
    SqDist1(seeds[1], moved[1]);
    assert Sq(seeds[0][0] - moved[0][0]) == EPSILON_SQ;
    SqDistSelf(moved[0], 1);
    SqDistSelf(moved[1], 1);
  }

  /** The first C round: centroid 0 moves by exactly EPSILON, which C counts as converged. */
  lemma CFirstRound(ps: seq<Vector>, seeds: seq<Vector>, moved: seq<Vector>)
    requires Example(ps, seeds, moved)
    ensures C.Round(ps, 1)(seeds) == (moved, true)
  {
    Updated(ps, seeds, moved, seeds);
    C.RoundIsStep(ps, 1, seeds);
    Moves(ps, seeds, moved);
  }

  /** A Python round from present centroids with no empty cluster, by RoundsAgree. */
  lemma PyRoundFrom(ps: seq<Vector>, cs: seq<Vector>, news: seq<Vector>, finished: bool)
    requires |cs| > 0 && HasDim(ps, 1) && HasDim(cs, 1) && NoEmptyCluster(ps, cs, 1)
    requires C.Step(ps, cs, 1).0 == news && AllStrictlyWithin(cs, news, 1) == finished
    ensures Py.Round(ps, 1)(Success(Present(cs))) == (Success(Present(news)), finished)
  {
    RoundsAgree(ps, cs, 1);
    PresentHasDim(cs, 1);
    Py.RoundIsStep(ps, 1, Present(cs));
  }

  /** The first Python round does not pass the strict test. */
  lemma PyFirstRound(ps: seq<Vector>, seeds: seq<Vector>, moved: seq<Vector>)
    requires Example(ps, seeds, moved)
    ensures Py.Round(ps, 1)(Success(Present(seeds))) == (Success(Present(moved)), false)
  {
    Updated(ps, seeds, moved, seeds);
    Moves(ps, seeds, moved);
    PyRoundFrom(ps, seeds, moved, false);
  }

  /** The second Python round moves nothing and passes. */
  lemma PySecondRound(ps: seq<Vector>, seeds: seq<Vector>, moved: seq<Vector>)
    requires Example(ps, seeds, moved)
    ensures Py.Round(ps, 1)(Success(Present(moved))) == (Success(Present(moved)), true)
  {
    Updated(ps, seeds, moved, moved);
    Moves(ps, seeds, moved);
    PyRoundFrom(ps, moved, moved, true);
  }

  /** In exact arithmetic, the C loop on the example stops after the first round, on 0.001 and 10. */
  lemma CStopsAfterOne(ps: seq<Vector>, seeds: seq<Vector>, moved: seq<Vector>, iter: nat)
    requires Example(ps, seeds, moved) && iter >= 1
    ensures seeds == ps[..2]
    ensures Iterate(C.Round(ps, 1), seeds, iter) == (moved, 1)
  {
    CFirstRound(ps, seeds, moved);
    IterateDone(C.Round(ps, 1), seeds, iter);
  }

  /** The seeds of the Python loop are the first two points, all present. */
  lemma PySeeds(ps: seq<Vector>, seeds: seq<Vector>, moved: seq<Vector>)
    requires Example(ps, seeds, moved)
    ensures Py.Seeds(ps, 2) == Present(seeds)
  {
    assert Py.Seeds(ps, 2)[0] == Present(seeds)[0];
    assert Py.Seeds(ps, 2)[1] == Present(seeds)[1];
  }

  /** From the moved centroids the Python loop runs one round, which finishes. */
  lemma PyLoopFromMoved(ps: seq<Vector>, seeds: seq<Vector>, moved: seq<Vector>, remaining: nat)
    requires Example(ps, seeds, moved) && remaining >= 1
    ensures Iterate(Py.Round(ps, 1), Success(Present(moved)), remaining) == (Success(Present(moved)), 1)
  {
    PySecondRound(ps, seeds, moved);
    IterateDone(Py.Round(ps, 1), Success(Present(moved)), remaining);
  }

  /** In exact arithmetic, the Python loop on the example goes on for a second round, which moves nothing, and stops after it. */
  lemma PyStopsAfterTwo(ps: seq<Vector>, seeds: seq<Vector>, moved: seq<Vector>, iter: nat)
    requires Example(ps, seeds, moved) && iter >= 2
    ensures Py.Seeds(ps, 2) == Present(seeds)
    ensures Iterate(Py.Round(ps, 1), Success(Py.Seeds(ps, 2)), iter) == (Success(Present(moved)), 2)
  {
    PySeeds(ps, seeds, moved);
    PyFirstRound(ps, seeds, moved);
    PyLoopFromMoved(ps, seeds, moved, iter - 1);
    IterateGoesOn(Py.Round(ps, 1), Success(Present(seeds)), iter);
  }
}
