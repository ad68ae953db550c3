/**
 * The C version of the engine (kmeans.c). Data points are read-only sequences;
 * the centroids live in an array whose entries the update step overwrites, and
 * the cluster index of every point lives in an int array the assignment step
 * fills in place. Distances are squared (see Vectors.RootThreshold).
 */
module KMeansC {
  import opened Wrappers
  import opened Vectors
  import opened Clustering
  import opened Iteration

  /** struct cord: a NULL-terminated singly linked list of coordinates. */
  datatype Cords = NullCord | Cord(value: real, next: Cords)

  /** A struct vector pointer: NULL, or a node with the next vector and its coordinates. */
  datatype VectorPtr = NullVector | VectorNode(next: VectorPtr, cords: Cords)

  /** The coordinates a list holds, in list order. */
  function Values(c: Cords): Vector {
    match c
    case NullCord => []
    case Cord(v, rest) => [v] + Values(rest)
  }

  /** The linked layout of a vector, as the input reader builds it. */
  function ToCords(v: Vector): (c: Cords)
    ensures Values(c) == v
  {
    if v == [] then NullCord else Cord(v[0], ToCords(v[1..]))
  }

  /** deep_clone_cords: a fresh list holding the same coordinates; NULL for NULL. */
  function DeepCloneCords(src: Cords): (r: Cords)
    ensures r.NullCord? <==> src.NullCord?
    ensures Values(r) == Values(src)
  {
    match src
    case NullCord => NullCord
    case Cord(v, rest) => Cord(v, DeepCloneCords(rest))
  }

  /** deep_clone_vector: NULL for NULL; otherwise a copy of the coordinates, detached (next is NULL). */
  function DeepCloneVector(src: VectorPtr): (r: VectorPtr)
    ensures r.NullVector? <==> src.NullVector?
    ensures r.VectorNode? ==> r.next == NullVector && Values(r.cords) == Values(src.cords)
  {
    match src
    case NullVector => NullVector
    case VectorNode(_, cords) => VectorNode(NullVector, DeepCloneCords(cords))
  }

  /**
   * euclidean_distance without the final square root: the sum of squared
   * differences over exactly the first d coordinates.
   */
  method SquaredEuclideanDistance(a: Vector, b: Vector, d: nat) returns (sum: real)
    requires d <= |a| && d <= |b|
    ensures sum == SqDist(a, b, d)
  {
    sum := 0.0;
    var i := 0;
    while i < d
      invariant 0 <= i <= d
      invariant sum == SqDist(a, b, i)
    {
      var diff := a[i] - b[i];
      sum := sum + diff * diff;
      i := i + 1;
    }
  }

  /** initialize_centroids: centroid i becomes a deep copy of data point i, for i < K. */
  method InitializeCentroids(centroids: array<Vector>, points: seq<Vector>, K: nat)
    requires centroids.Length == K && K <= |points|
    modifies centroids
    ensures centroids[..] == points[..K]
  {
    for i := 0 to K
      invariant forall t :: 0 <= t < i ==> centroids[t] == points[t]
    {
      centroids[i] := Values(DeepCloneCords(ToCords(points[i])));
    }
  }

  /**
   * The inner loop of assign_clusters for one point: start from centroid 0 and
   * move to centroid j only when it is strictly nearer. The result is the
   * nearest centroid, the lowest-indexed one among equally near centroids.
   */
  method ClosestCentroid(p: Vector, centroids: array<Vector>, K: nat, d: nat) returns (minCluster: int)
    requires centroids.Length == K > 0 && |p| == d && HasDim(centroids[..], d)
    ensures IsFirstNearest(p, centroids[..], d, minCluster)
  {
    ghost var cs := centroids[..];
    var minDist := SquaredEuclideanDistance(p, centroids[0], d);
    minCluster := 0;
    ScanStart(p, cs, d);
    for j := 1 to K
      invariant 0 <= minCluster < j
      invariant minDist == SqDist(p, cs[minCluster], d)
      invariant IsFirstNearest(p, cs[..j], d, minCluster)
    {
      var dist := SquaredEuclideanDistance(p, centroids[j], d);
      ScanStep(p, cs, d, j, minCluster);
      if dist < minDist {
        minDist := dist;
        minCluster := j;
      }
    }
    assert cs[..K] == cs;
  }

  /**
   * assign_clusters: every point, in order, gets the index of its nearest
   * centroid. Only the assignment array changes.
   */
  method AssignClusters(points: seq<Vector>, centroids: array<Vector>, assignments: array<int>, N: nat, K: nat, d: nat)
    requires |points| == N == assignments.Length && centroids.Length == K > 0
    requires HasDim(points, d) && HasDim(centroids[..], d)
    modifies assignments
    ensures forall i :: 0 <= i < N ==> IsFirstNearest(points[i], centroids[..], d, assignments[i])
    ensures assignments[..] == Assignment(points, centroids[..], d)
  {
    for i := 0 to N
      invariant forall t :: 0 <= t < i ==> assignments[t] == Nearest(points[t], centroids[..], d)
    {
      var minCluster := ClosestCentroid(points[i], centroids, K, d);
      IsNearest(points[i], centroids[..], d, minCluster);
      assignments[i] := minCluster;
    }
  }

  /**
   * The new position of centroid c: the mean of the points assigned to it. An
   * empty cluster keeps its old position (kmeans.c divides by a zero count there).
   */
  function UpdatedCentroid(points: seq<Vector>, asg: seq<int>, prev: Vector, c: int, d: nat): (r: Vector)
    requires |points| == |asg| && HasDim(points, d) && |prev| == d
    ensures |r| == d
  {
    if Count(asg, c, |points|) == 0 then prev else ClusterMean(points, asg, c, d)
  }

  /** All K centroids after an update. */
  function UpdatedCentroids(points: seq<Vector>, asg: seq<int>, olds: seq<Vector>, d: nat): (r: seq<Vector>)
    requires |points| == |asg| && HasDim(points, d) && HasDim(olds, d)
    ensures |r| == |olds| && HasDim(r, d)
  {
    seq(|olds|, c requires 0 <= c < |olds| => UpdatedCentroid(points, asg, olds[c], c, d))
  }

  /** The all-or-nothing convergence test: no centroid moved farther than EPSILON. */
  predicate AllWithin(olds: seq<Vector>, news: seq<Vector>, d: nat)
    requires HasDim(olds, d) && HasDim(news, d) && |olds| == |news|
  {
    forall c :: 0 <= c < |olds| ==> SqDist(olds[c], news[c], d) <= EPSILON_SQ
  }

  /** The cluster sizes of an assignment pass add up to the number of points. */
  lemma CountsAddUp(points: seq<Vector>, cs: seq<Vector>, d: nat)
    requires |cs| > 0 && HasDim(points, d) && HasDim(cs, d)
    ensures SumCounts(Assignment(points, cs, d), |cs|, |points|) == |points|
  {
    var asg := Assignment(points, cs, d);
    assert InRange(asg, |cs|);
    CountsSumToN(asg, |cs|, |points|);
  }

  /**
   * The first half of update_centroids: fresh K-by-d sums and K counts, zeroed,
   * then filled by one pass over the points in order.
   */
  method AccumulateSums(points: seq<Vector>, assignments: array<int>, N: nat, K: nat, d: nat)
    returns (sums: array2<real>, counts: array<int>)
    requires assignments.Length == N == |points| && HasDim(points, d)
    requires InRange(assignments[..], K)
    ensures fresh(sums) && fresh(counts)
    ensures sums.Length0 == K && sums.Length1 == d && counts.Length == K
    ensures forall c, j :: 0 <= c < K && 0 <= j < d ==> sums[c, j] == CoordSum(points, assignments[..], c, j, N)
    ensures forall c :: 0 <= c < K ==> counts[c] == Count(assignments[..], c, N)
  {
    ghost var asg := assignments[..];
    sums := new real[K, d]((_, _) => 0.0);
    counts := new int[K](_ => 0);
    for i := 0 to N
      modifies sums, counts
      invariant forall c, j :: 0 <= c < K && 0 <= j < d ==> sums[c, j] == CoordSum(points, asg, c, j, i)
      invariant forall c :: 0 <= c < K ==> counts[c] == Count(asg, c, i)
    {
      var cluster := assignments[i];
      for j := 0 to d
        modifies sums
        invariant forall c, j' :: 0 <= c < K && 0 <= j' < d ==>
          sums[c, j'] == if c == cluster && j' < j then CoordSum(points, asg, c, j', i + 1)
                         else CoordSum(points, asg, c, j', i)
      {
        sums[cluster, j] := sums[cluster, j] + points[i][j];
      }
      counts[cluster] := counts[cluster] + 1;
    }
  }

  /**
   * update_centroids: accumulate per-cluster sums and counts in point order,
   * divide, compare each new centroid with the old one, and overwrite it. The
   * result is 1 iff every centroid moved at most EPSILON.
   */
  method UpdateCentroids(centroids: array<Vector>, points: seq<Vector>, assignments: array<int>, N: nat, K: nat, d: nat)
    returns (converged: bool)
    requires centroids.Length == K && assignments.Length == N == |points|
    requires HasDim(points, d) && HasDim(centroids[..], d)
    requires InRange(assignments[..], K)
    modifies centroids
    ensures centroids[..] == UpdatedCentroids(points, assignments[..], old(centroids[..]), d)
    ensures converged == AllWithin(old(centroids[..]), centroids[..], d)
  {
    ghost var olds := centroids[..];
    ghost var asg := assignments[..];
    var sums, counts := AccumulateSums(points, assignments, N, K, d);

    // New centroids, the convergence flag, and the overwrite.
    ghost var news := UpdatedCentroids(points, asg, olds, d);
    converged := true;
    for i := 0 to K
      modifies centroids
      invariant forall c :: 0 <= c < i ==> centroids[c] == news[c]
      invariant forall c :: i <= c < K ==> centroids[c] == olds[c]
      invariant converged == forall c :: 0 <= c < i ==> SqDist(olds[c], news[c], d) <= EPSILON_SQ
    {
      assert news[i] == UpdatedCentroid(points, asg, olds[i], i, d);
      var newCentroid: Vector;
      if counts[i] == 0 {
        newCentroid := centroids[i];
      } else {
        newCentroid := [];
        for j := 0 to d
          modifies {}
          invariant |newCentroid| == j
          invariant forall j' :: 0 <= j' < j ==> newCentroid[j'] == sums[i, j'] / (counts[i] as real)
        {
          newCentroid := newCentroid + [sums[i, j] / (counts[i] as real)];
        }
        assert newCentroid == ClusterMean(points, asg, i, d);
      }
      assert newCentroid == news[i];
      var distance := SquaredEuclideanDistance(centroids[i], newCentroid, d);
      if distance > EPSILON_SQ {
        converged := false;
      }
      centroids[i] := newCentroid;
    }
    assert centroids[..] == news;
  }

  /** One assign-and-update round from centroids cs: the new centroids and the convergence flag. */
  function Step(points: seq<Vector>, cs: seq<Vector>, d: nat): (r: (seq<Vector>, bool))
    requires |cs| > 0 && HasDim(points, d) && HasDim(cs, d)
    ensures |r.0| == |cs| && HasDim(r.0, d)
  {
    var news := UpdatedCentroids(points, Assignment(points, cs, d), cs, d);
    (news, AllWithin(cs, news, d))
  }

  /**
   * One round of the main loop as a step function on the centroids. Outside
   * the well-formed states (which the loop never leaves, see RoundKeepsShape)
   * it stops without change.
   */
  function Round(points: seq<Vector>, d: nat): seq<Vector> -> (seq<Vector>, bool) {
    cs => if |cs| > 0 && HasDim(points, d) && HasDim(cs, d) then Step(points, cs, d) else (cs, true)
  }

  /** Every state the main loop reaches has the initial number of centroids, all of dimension d. */
  lemma {:induction false} RoundKeepsShape(points: seq<Vector>, d: nat, cs: seq<Vector>, t: nat)
    requires |cs| > 0 && HasDim(points, d) && HasDim(cs, d)
    ensures |Trajectory(Round(points, d), cs, t)| == |cs|
    ensures HasDim(Trajectory(Round(points, d), cs, t), d)
    decreases t
  {
    if t > 0 {
      var next := Round(points, d)(cs).0;
      assert next == Step(points, cs, d).0;
      RoundKeepsShape(points, d, next, t - 1);
    }
  }

  /**
   * In the main loop, a round stops the loop exactly when every centroid moved
   * at most EPSILON in it.
   */
  lemma StopsOnConvergence(points: seq<Vector>, d: nat, cs: seq<Vector>, t: nat)
    requires |cs| > 0 && HasDim(points, d) && HasDim(cs, d)
    ensures var before := Trajectory(Round(points, d), cs, t);
      |before| == |cs| && HasDim(before, d) &&
      (DoneAt(Round(points, d), cs, t) <==> AllWithin(before, Step(points, before, d).0, d))
  {
    RoundKeepsShape(points, d, cs, t);
  }

  /** From well-formed centroids, a round is Step. */
  lemma RoundIsStep(points: seq<Vector>, d: nat, cs: seq<Vector>)
    requires |cs| > 0 && HasDim(points, d) && HasDim(cs, d)
    ensures Round(points, d)(cs) == Step(points, cs, d)
  {
  }

  /** An assignment pass followed by an update pass is one Round of the main loop. */
  lemma RoundIs(points: seq<Vector>, d: nat, cs: seq<Vector>, asg: seq<int>, news: seq<Vector>, converged: bool)
    requires |cs| > 0 && HasDim(points, d) && HasDim(cs, d)
    requires asg == Assignment(points, cs, d)
    requires news == UpdatedCentroids(points, asg, cs, d)
    requires converged == AllWithin(cs, news, d)
    ensures Round(points, d)(cs) == (news, converged)
  {
  }

  /** One pass of the main loop body (kmeans.c:439-440): assign, then update. */
  method LloydRound(points: seq<Vector>, centroids: array<Vector>, assignments: array<int>, N: nat, K: nat, d: nat)
    returns (converged: bool)
    requires |points| == N == assignments.Length && centroids.Length == K > 0
    requires HasDim(points, d) && HasDim(centroids[..], d)
    modifies centroids, assignments
    ensures HasDim(centroids[..], d)
    ensures assignments[..] == Assignment(points, old(centroids[..]), d)
    ensures (centroids[..], converged) == Round(points, d)(old(centroids[..]))
  {
    ghost var before := centroids[..];
    AssignClusters(points, centroids, assignments, N, K, d);
    converged := UpdateCentroids(centroids, points, assignments, N, K, d);
    RoundIs(points, d, before, assignments[..], centroids[..], converged);
  }

  /**
   * The clustering run in main (kmeans.c:433-444): seed with the first K
   * points, then assign and update until a round converges or `iter` rounds
   * have run. Returns the final centroids and the number of rounds run.
   */
  method KMeans(points: seq<Vector>, N: nat, K: nat, d: nat, iter: nat) returns (result: seq<Vector>, rounds: nat)
    requires |points| == N && 0 < K <= N && HasDim(points, d)
    ensures (result, rounds) == Iterate(Round(points, d), points[..K], iter)
  {
    var centroids := new Vector[K];
    InitializeCentroids(centroids, points, K);
    var assignments := new int[N];
    ghost var start := centroids[..];
    LoopStart(Round(points, d), start, iter);
    var converged := false;
    var i := 0;
    while i < iter && !converged
      invariant 0 <= i <= iter && centroids.Length == K
      invariant HasDim(centroids[..], d)
      invariant LoopState(Round(points, d), start, iter, centroids[..], i, converged)
      decreases iter - i
    {
      ghost var before := centroids[..];
      converged := LloydRound(points, centroids, assignments, N, K, d);
      LoopAdvance(Round(points, d), start, iter, before, i);
      i := i + 1;
    }
    LoopExit(Round(points, d), start, iter, centroids[..], i, converged);
    result := centroids[..];
    rounds := i;
  }

  /**
   * The argument checks of main, in order: isInteger rejects a K that is not
   * positive, then a given iter that is not positive; after the data are read,
   * the range check on K comes before the one on the iteration cap.
   */
  function Validate(K: int, iterArg: Option<int>, N: nat): (r: Option<Error>)
    ensures r.None? <==> 1 < K < N && 1 < IterationCap(iterArg) < MAX_ITER
    ensures r.Some? ==> r.value == InvalidClusters || r.value == InvalidIteration
  {
    if K <= 0 then Some(InvalidClusters)
    else if iterArg.Some? && iterArg.value <= 0 then Some(InvalidIteration)
    else if K <= 1 || K >= N then Some(InvalidClusters)
    else if IterationCap(iterArg) <= 1 || IterationCap(iterArg) >= MAX_ITER then Some(InvalidIteration)
    else None
  }

  /**
   * main after argument parsing and input reading: a run on N points proceeds
   * only if 1 < K < N and 1 < iter < MAX_ITER, and then yields the centroids of
   * the main loop; otherwise it fails with the first check violated: K not
   * positive, a given iter not positive, K out of range, iter out of range.
   */
  method Run(points: seq<Vector>, d: nat, K: int, iterArg: Option<int>) returns (r: Result<seq<Vector>, Error>)
    requires HasDim(points, d)
    ensures var iter := IterationCap(iterArg);
      && (r.Success? <==> 1 < K < |points| && 1 < iter < MAX_ITER)
      && (r.Failure? ==>
            r.error == (if K <= 0 then InvalidClusters
                        else if iterArg.Some? && iterArg.value <= 0 then InvalidIteration
                        else if !(1 < K < |points|) then InvalidClusters
                        else InvalidIteration))
      && (r.Success? ==> r.value == Iterate(Round(points, d), points[..K], iter).0)
  {
    var iter := IterationCap(iterArg);
    var invalid := Validate(K, iterArg, |points|);
    if invalid.Some? {
      return Failure(invalid.value);
    }
    var centroids, _ := KMeans(points, |points|, K, d, iter);
    return Success(centroids);
  }
}
