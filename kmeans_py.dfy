/**
 * The Python version of the engine (kmeans.py). Each function is a method
 * over sequences, proved against a specification function. A centroid is
 * an Option: None stands for the -1 placeholder updateCentroids leaves for
 * an empty cluster. Where Python would raise on the placeholder (or on an
 * empty list), the model returns Failure with the exception's kind, at the
 * point Python would raise it.
 */
module KMeansPy {
  import opened Wrappers
  import opened Vectors
  import opened Clustering
  import opened Iteration

  /** A centroid list entry: a vector, or the -1 placeholder (None). */
  type Centroid = Option<Vector>

  /** Python's float('inf') and the finite distances compared against it. */
  datatype Bound = Infinity | Finite(value: real)

  /** x < b, with every real below Infinity. */
  predicate Below(x: real, b: Bound) {
    b.Infinity? || x < b.value
  }

  /** Every centroid that is present has d coordinates. */
  predicate PresentHaveDim(cs: seq<Centroid>, d: nat) {
    forall i :: 0 <= i < |cs| ==> cs[i].Some? ==> |cs[i].value| == d
  }

  /** Some entry of the centroid list is the -1 placeholder. */
  predicate HasPlaceholder(cs: seq<Centroid>) {
    exists i :: 0 <= i < |cs| && cs[i].None?
  }

  /**
   * The vector a list entry denotes for eucDistance: the placeholder is read
   * as having no coordinates, which is what eucDistance sees of it before it
   * subscripts it (so no coordinate of it is ever used).
   */
  function AsVector(c: Centroid): (v: Vector)
    ensures c.Some? ==> v == c.value
    ensures c.None? ==> |v| == 0
  {
    if c.Some? then c.value else []
  }

  function AsVectors(cs: seq<Centroid>): (vs: seq<Vector>)
    ensures |vs| == |cs|
    ensures forall i :: 0 <= i < |cs| ==> vs[i] == AsVector(cs[i])
  {
    seq(|cs|, i requires 0 <= i < |cs| => AsVector(cs[i]))
  }

  /**
   * eucDistance (kmeans.py:11-24) without the final square root: the sum of
   * squared differences over the coordinates of vector1.
   */
  method EucDistance(vector1: Vector, vector2: Vector) returns (dis: real)
    requires |vector1| <= |vector2|
    ensures dis == SqDist(vector1, vector2, |vector1|)
  {
    dis := 0.0;
    var d := |vector1|;
    for i := 0 to d
      invariant dis == SqDist(vector1, vector2, i)
    {
      dis := dis + Sq(vector1[i] - vector2[i]);
    }
  }

  /**
   * The clusters assignToClusters builds from centroids cs: list c holds the
   * vectors whose first nearest centroid is c, in input order.
   */
  function Grouping(vectors: seq<Vector>, cs: seq<Vector>, d: nat): (r: seq<seq<Vector>>)
    requires HasDim(vectors, d) && HasDim(cs, d)
    ensures |r| == |cs|
    ensures forall c :: 0 <= c < |r| ==> HasDim(r[c], d)
  {
    if |cs| == 0 then []
    else
      var asg := Assignment(vectors, cs, d);
      GroupsHaveDim(vectors, asg, |cs|, d);
      seq(|cs|, c requires 0 <= c < |cs| => Members(vectors, asg, c, |vectors|))
  }

  /** Every cluster list holds d-dimensional vectors. */
  lemma GroupsHaveDim(vectors: seq<Vector>, asg: seq<int>, k: nat, d: nat)
    requires |vectors| == |asg| && HasDim(vectors, d)
    ensures forall c :: 0 <= c < k ==> HasDim(Members(vectors, asg, c, |vectors|), d)
  {
    forall c | 0 <= c < k
      ensures HasDim(Members(vectors, asg, c, |vectors|), d)
    {
      MembersHaveDim(vectors, asg, c, d, |vectors|);
    }
  }

  /**
   * The result of assignToClusters (kmeans.py:27-54). With no vectors it is
   * k empty lists. Otherwise, no centroids means clusters[-1] on an empty
   * list (IndexError), and a placeholder among the centroids makes the first
   * vector's distance to it subscript an int (TypeError) unless vectors have
   * no coordinates.
   */
  function Assign(centroids: seq<Centroid>, vectors: seq<Vector>, d: nat): Result<seq<seq<Vector>>, Error>
    requires HasDim(vectors, d) && PresentHaveDim(centroids, d)
  {
    if |vectors| == 0 then Success(seq(|centroids|, _ => []))
    else if |centroids| == 0 then Failure(IndexError)
    else if d > 0 && HasPlaceholder(centroids) then Failure(TypeError)
    else Success(Grouping(vectors, AsVectors(centroids), d))
  }

  /** The sum of the lengths of a list of clusters. */
  function TotalSize(clusters: seq<seq<Vector>>): nat {
    if |clusters| == 0 then 0 else TotalSize(clusters[..|clusters| - 1]) + |clusters[|clusters| - 1]|
  }

  /** The clusters of assignToClusters hold, together, exactly as many vectors as the input. */
  lemma GroupingSize(vectors: seq<Vector>, cs: seq<Vector>, d: nat)
    requires |cs| > 0 && HasDim(vectors, d) && HasDim(cs, d)
    ensures TotalSize(Grouping(vectors, cs, d)) == |vectors|
  {
    var g := Grouping(vectors, cs, d);
    var asg := Assignment(vectors, cs, d);
    assert InRange(asg, |cs|);
    GroupingPrefixSize(vectors, cs, d, |cs|);
    assert g[..|cs|] == g;
    CountsSumToN(asg, |cs|, |vectors|);
  }

  /** The first c clusters hold together as many vectors as the first c counts add up to. */
  lemma {:induction false} GroupingPrefixSize(vectors: seq<Vector>, cs: seq<Vector>, d: nat, c: nat)
    requires |cs| > 0 && HasDim(vectors, d) && HasDim(cs, d) && c <= |cs|
    ensures TotalSize(Grouping(vectors, cs, d)[..c]) == SumCounts(Assignment(vectors, cs, d), c, |vectors|)
  {
    if c > 0 {
      var g := Grouping(vectors, cs, d);
      GroupingPrefixSize(vectors, cs, d, c - 1);
      assert g[..c][..c - 1] == g[..c - 1];
      MembersInOrder(vectors, Assignment(vectors, cs, d), c - 1, |vectors|);
    }
  }

  /**
   * Cluster c lists, in increasing input position, exactly the vectors whose
   * first nearest centroid is c: each vector goes to a nearest centroid, ties
   * to the lowest index, and order within a cluster is input order.
   */
  lemma GroupingInOrder(vectors: seq<Vector>, cs: seq<Vector>, d: nat, c: nat)
    requires c < |cs| && HasDim(vectors, d) && HasDim(cs, d)
    ensures var cluster := Grouping(vectors, cs, d)[c];
      var idx := MemberIndices(Assignment(vectors, cs, d), c, |vectors|);
      && |idx| == |cluster|
      && (forall t :: 0 <= t < |idx| ==> idx[t] < |vectors| && cluster[t] == vectors[idx[t]])
      && (forall t :: 0 <= t < |idx| ==> IsFirstNearest(vectors[idx[t]], cs, d, c))
      && (forall t, u :: 0 <= t < u < |idx| ==> idx[t] < idx[u])
      && (forall i :: 0 <= i < |vectors| && IsFirstNearest(vectors[i], cs, d, c) ==> i in idx)
  {
    var asg := Assignment(vectors, cs, d);
    MembersInOrder(vectors, asg, c, |vectors|);
    forall i | 0 <= i < |vectors| && IsFirstNearest(vectors[i], cs, d, c)
      ensures asg[i] == c
    {
      FirstNearestUnique(vectors[i], cs, d, c, asg[i]);
    }
  }

  /**
   * The inner loop of assignToClusters for one vector (kmeans.py:39-50):
   * starting from float('inf') and index -1, move to centroid i only when it
   * is strictly nearer. Meeting a placeholder with a vector that has
   * coordinates raises TypeError.
   */
  method ClosestCentroid(vector: Vector, centroids: seq<Centroid>, d: nat) returns (r: Result<nat, Error>)
    requires |vector| == d && |centroids| > 0 && PresentHaveDim(centroids, d)
    ensures r.Failure? <==> d > 0 && HasPlaceholder(centroids)
    ensures r.Failure? ==> r.error == TypeError
    ensures r.Success? ==>
      HasDim(AsVectors(centroids), d) && IsFirstNearest(vector, AsVectors(centroids), d, r.value)
  {
    var k := |centroids|;
    ghost var cs := AsVectors(centroids);
    var minDistance := Infinity;
    var closestCentroid := -1;
    for i := 0 to k
      invariant HasDim(cs[..i], d)
      invariant Scanned(vector, cs, d, i, closestCentroid, minDistance)
    {
      if centroids[i].None? && |vector| > 0 {
        return Failure(TypeError);
      }
      assert cs[..i + 1] == cs[..i] + [cs[i]];
      var currDistance := EucDistance(vector, AsVector(centroids[i]));
      ScanNext(vector, cs, d, i, closestCentroid, minDistance, currDistance);
      if Below(currDistance, minDistance) {
        minDistance := Finite(currDistance);
        closestCentroid := i;
      }
    }
    assert cs[..k] == cs;
    return Success(closestCentroid);
  }

  /**
   * The state of the scan after the first i centroids: nothing seen yet
   * (float('inf') and -1), or the first nearest among them and its distance.
   */
  ghost predicate Scanned(vector: Vector, cs: seq<Vector>, d: nat, i: nat, closest: int, minDistance: Bound)
    requires i <= |cs| && |vector| == d && HasDim(cs[..i], d)
  {
    if i == 0 then minDistance == Infinity && closest == -1
    else
      && IsFirstNearest(vector, cs[..i], d, closest)
      && minDistance == Finite(SqDist(vector, cs[closest], d))
  }

  /** Comparing centroid i against the running minimum advances the scan by one. */
  lemma ScanNext(vector: Vector, cs: seq<Vector>, d: nat, i: nat, closest: int, minDistance: Bound, curr: real)
    requires i < |cs| && |vector| == d && HasDim(cs[..i + 1], d)
    requires Scanned(vector, cs, d, i, closest, minDistance)
    requires curr == SqDist(vector, cs[i], d)
    ensures Scanned(vector, cs, d, i + 1,
      if Below(curr, minDistance) then i else closest,
      if Below(curr, minDistance) then Finite(curr) else minDistance)
  {
    var cs' := cs[..i + 1];
    if i == 0 {
      ScanStart(vector, cs', d);
      assert cs'[..1] == cs';
    } else {
      assert cs'[..i] == cs[..i];
      ScanStep(vector, cs', d, i, closest);
      assert cs'[..i + 1] == cs';
    }
  }

  /**
   * assignToClusters (kmeans.py:27-54): k empty lists, then each vector in
   * order appended to the list of its closest centroid.
   */
  method AssignToClusters(centroids: seq<Centroid>, vectors: seq<Vector>, d: nat) returns (r: Result<seq<seq<Vector>>, Error>)
    requires HasDim(vectors, d) && PresentHaveDim(centroids, d)
    ensures r == Assign(centroids, vectors, d)
  {
    var k := |centroids|;
    ghost var cs := AsVectors(centroids);
    var clusters: seq<seq<Vector>> := seq(k, _ => []);
    ghost var valid := k > 0 && HasDim(cs, d);
    ghost var asg: seq<int> := if valid then Assignment(vectors, cs, d) else seq(|vectors|, _ => 0);
    for t := 0 to |vectors|
      invariant |asg| == |vectors| && |clusters| == k
      invariant t > 0 ==> valid
      invariant forall c :: 0 <= c < k ==> clusters[c] == Members(vectors, asg, c, t)
    {
      var vector := vectors[t];
      if k == 0 {
        // closestCentroid is still -1, and clusters[-1] fails on an empty list
        return Failure(IndexError);
      }
      var closest := ClosestCentroid(vector, centroids, d);
      if closest.Failure? {
        return Failure(closest.error);
      }
      IsNearest(vector, cs, d, closest.value);
      AppendMember(vectors, asg, clusters, t);
      clusters := clusters[closest.value := clusters[closest.value] + [vector]];
    }
    if |vectors| == 0 {
      assert clusters == seq(k, _ => []);
    } else {
      AssignSucceeds(centroids, vectors, d);
      assert clusters == Grouping(vectors, cs, d);
    }
    return Success(clusters);
  }

  /** Appending vector t to the list of its cluster extends the members to the first t + 1 vectors. */
  lemma AppendMember(vectors: seq<Vector>, asg: seq<int>, clusters: seq<seq<Vector>>, t: nat)
    requires t < |vectors| == |asg| && 0 <= asg[t] < |clusters|
    requires forall c :: 0 <= c < |clusters| ==> clusters[c] == Members(vectors, asg, c, t)
    ensures var next := clusters[asg[t] := clusters[asg[t]] + [vectors[t]]];
      forall c :: 0 <= c < |clusters| ==> next[c] == Members(vectors, asg, c, t + 1)
  {
  }

  /** With vectors present and every centroid of dimension d, assignToClusters returns the grouping. */
  lemma AssignSucceeds(centroids: seq<Centroid>, vectors: seq<Vector>, d: nat)
    requires HasDim(vectors, d) && PresentHaveDim(centroids, d)
    requires |vectors| > 0 && |centroids| > 0 && HasDim(AsVectors(centroids), d)
    ensures Assign(centroids, vectors, d) == Success(Grouping(vectors, AsVectors(centroids), d))
  {
    var cs := AsVectors(centroids);
    forall i | 0 <= i < |centroids| && d > 0
      ensures centroids[i].Some?
    {
      assert |cs[i]| == d;
    }
  }

  /** The centroid updateCentroids puts at a cluster's index: the placeholder when it is empty, else its mean. */
  function CentroidOf(cluster: seq<Vector>): Centroid
    requires |cluster| > 0 ==> HasDim(cluster, |cluster[0]|)
  {
    if |cluster| == 0 then None else Some(Mean(cluster, |cluster[0]|))
  }

  /** Every non-empty cluster has the dimension of its first vector. */
  predicate Uniform(clusters: seq<seq<Vector>>) {
    forall c :: 0 <= c < |clusters| ==> |clusters[c]| > 0 ==> HasDim(clusters[c], |clusters[c][0]|)
  }

  /**
   * newCentroid (kmeans.py:57-77): d is the length of the first vector, the d
   * coordinate sums are accumulated vector by vector and then divided by the
   * cluster size. An empty cluster fails at cluster[0].
   */
  method NewCentroid(cluster: seq<Vector>) returns (r: Result<Vector, Error>)
    requires |cluster| > 0 ==> HasDim(cluster, |cluster[0]|)
    ensures |cluster| == 0 ==> r == Failure(IndexError)
    ensures |cluster| > 0 ==> r == Success(Mean(cluster, |cluster[0]|))
  {
    if |cluster| == 0 {
      return Failure(IndexError);
    }
    var d := |cluster[0]|;
    var n := |cluster|;
    var newCentroid: seq<real> := seq(d, _ => 0.0);
    for t := 0 to n
      invariant |newCentroid| == d
      invariant forall j :: 0 <= j < d ==> newCentroid[j] == SeqCoordSum(cluster[..t], j)
    {
      var vector := cluster[t];
      assert cluster[..t + 1][..t] == cluster[..t];
      for i := 0 to d
        invariant |newCentroid| == d
        invariant forall j :: 0 <= j < i ==> newCentroid[j] == SeqCoordSum(cluster[..t + 1], j)
        invariant forall j :: i <= j < d ==> newCentroid[j] == SeqCoordSum(cluster[..t], j)
      {
        newCentroid := newCentroid[i := newCentroid[i] + vector[i]];
      }
    }
    assert cluster[..n] == cluster;
    for i := 0 to d
      invariant |newCentroid| == d
      invariant forall j :: 0 <= j < i ==> newCentroid[j] == SeqCoordSum(cluster, j) / (n as real)
      invariant forall j :: i <= j < d ==> newCentroid[j] == SeqCoordSum(cluster, j)
    {
      newCentroid := newCentroid[i := newCentroid[i] / (n as real)];
    }
    assert newCentroid == Mean(cluster, d);
    return Success(newCentroid);
  }

  /**
   * updateCentroids (kmeans.py:80-97): a list of k placeholders, with index i
   * overwritten by newCentroid of cluster i when that cluster is not empty.
   */
  method UpdateCentroids(clusters: seq<seq<Vector>>) returns (centroids: seq<Centroid>)
    requires Uniform(clusters)
    ensures |centroids| == |clusters|
    ensures forall i :: 0 <= i < |clusters| ==> centroids[i] == CentroidOf(clusters[i])
  {
    var k := |clusters|;
    centroids := seq(k, _ => None);
    for i := 0 to k
      invariant |centroids| == k
      invariant forall c :: 0 <= c < i ==> centroids[c] == CentroidOf(clusters[c])
      invariant forall c :: i <= c < k ==> centroids[c] == None
    {
      var cluster := clusters[i];
      if |cluster| == 0 {
        continue;
      }
      var newCentroidVal := NewCentroid(cluster);
      centroids := centroids[i := Some(newCentroidVal.value)];
    }
  }

  /** The centroid list updateCentroids returns for the given clusters. */
  function NewCentroids(clusters: seq<seq<Vector>>): (r: seq<Centroid>)
    requires Uniform(clusters)
    ensures |r| == |clusters|
    ensures forall i :: 0 <= i < |r| ==> r[i].Some? ==> |clusters[i]| > 0 && |r[i].value| == |clusters[i][0]|
  {
    seq(|clusters|, i requires 0 <= i < |clusters| => CentroidOf(clusters[i]))
  }

  /** Every entry the distance reads in the old list has a partner at least as long in the new one. */
  predicate Comparable(olds: seq<Centroid>, news: seq<Centroid>) {
    && |news| <= |olds|
    && forall i :: 0 <= i < |news| ==> olds[i].Some? && news[i].Some? ==> |olds[i].value| <= |news[i].value|
  }

  /**
   * finishIter (kmeans.py:100-115) from index i on: the first index whose
   * distance is at least EPSILON answers False, the end answers True. The
   * distance raises TypeError when the old entry is a placeholder (len(-1)),
   * or when the new one is and the old one has coordinates.
   */
  function FinishFrom(olds: seq<Centroid>, news: seq<Centroid>, i: nat): (r: Result<bool, Error>)
    requires i <= |news| && Comparable(olds, news)
    ensures r.Failure? ==> r.error == TypeError
    decreases |news| - i
  {
    if i == |news| then Success(true)
    else if olds[i].None? then Failure(TypeError)
    else if |olds[i].value| > 0 && news[i].None? then Failure(TypeError)
    else if SqDist(olds[i].value, AsVector(news[i]), |olds[i].value|) >= EPSILON_SQ then Success(false)
    else FinishFrom(olds, news, i + 1)
  }

  /** What finishIter returns for the old and new centroid lists. */
  function Finish(olds: seq<Centroid>, news: seq<Centroid>): Result<bool, Error>
    requires Comparable(olds, news)
  {
    FinishFrom(olds, news, 0)
  }

  /** Index i neither stops finishIter nor makes it raise: the old entry moved less than EPSILON. */
  predicate Settled(o: Centroid, n: Centroid)
    requires o.Some? && n.Some? ==> |o.value| <= |n.value|
  {
    o.Some? && (|o.value| == 0 || (n.Some? && SqDist(o.value, n.value, |o.value|) < EPSILON_SQ))
  }

  /** finishIter returns True exactly when every index from i on is settled. */
  lemma {:induction false} FinishTrueIff(olds: seq<Centroid>, news: seq<Centroid>, i: nat)
    requires i <= |news| && Comparable(olds, news)
    ensures FinishFrom(olds, news, i) == Success(true) <==>
      forall j :: i <= j < |news| ==> Settled(olds[j], news[j])
    decreases |news| - i
  {
    if i < |news| {
      FinishTrueIff(olds, news, i + 1);
      if olds[i].Some? && |olds[i].value| == 0 {
        assert SqDist(olds[i].value, AsVector(news[i]), 0) == 0.0;
      }
    }
  }

  /**
   * With no placeholder on either side, finishIter neither raises nor looks
   * past a moved centroid: it returns whether every centroid moved less than
   * EPSILON.
   */
  lemma {:induction false} FinishAllPresent(olds: seq<Centroid>, news: seq<Centroid>, i: nat)
    requires i <= |news| && Comparable(olds, news)
    requires forall j :: 0 <= j < |news| ==> olds[j].Some? && news[j].Some?
    ensures FinishFrom(olds, news, i) ==
      Success(forall j :: i <= j < |news| ==> SqDist(olds[j].value, news[j].value, |olds[j].value|) < EPSILON_SQ)
    decreases |news| - i
  {
    if i < |news| {
      FinishAllPresent(olds, news, i + 1);
    }
  }

  /** finishIter: the loop over the new list with its early return False. */
  method FinishIter(oldCentroids: seq<Centroid>, centroids: seq<Centroid>) returns (r: Result<bool, Error>)
    requires Comparable(oldCentroids, centroids)
    ensures r == Finish(oldCentroids, centroids)
  {
    var k := |centroids|;
    for i := 0 to k
      invariant FinishFrom(oldCentroids, centroids, i) == Finish(oldCentroids, centroids)
    {
      if oldCentroids[i].None? {
        return Failure(TypeError);
      }
      var o := oldCentroids[i].value;
      if |o| > 0 && centroids[i].None? {
        return Failure(TypeError);
      }
      var distance := EucDistance(o, AsVector(centroids[i]));
      if distance >= EPSILON_SQ {
        return Success(false);
      }
    }
    return Success(true);
  }

  /**
   * One pass of the loop body of kmeans (kmeans.py:128-133) from centroid
   * list cs: the next centroid list and whether the loop stops. An exception
   * ends the run with its error.
   */
  function Step(vectors: seq<Vector>, d: nat, cs: seq<Centroid>): (r: (Result<seq<Centroid>, Error>, bool))
    requires HasDim(vectors, d) && PresentHaveDim(cs, d)
    ensures r.0.Success? ==> |r.0.value| == |cs| && PresentHaveDim(r.0.value, d)
    ensures r.0.Failure? ==> r.1 && (r.0.error == TypeError || r.0.error == IndexError)
  {
    match Assign(cs, vectors, d)
    case Failure(e) => (Failure(e), true)
    case Success(clusters) =>
      var news := NewCentroids(clusters);
      match Finish(cs, news)
      case Failure(e) => (Failure(e), true)
      case Success(finished) => (Success(news), finished)
  }

  /**
   * One round of kmeans as a step function on the run state (the centroid
   * list, or the exception that ended the run). Outside the well-formed
   * states, which the loop never leaves, it stops without change.
   */
  function Round(vectors: seq<Vector>, d: nat): Result<seq<Centroid>, Error> -> (Result<seq<Centroid>, Error>, bool) {
    (s: Result<seq<Centroid>, Error>) => if s.Success? && HasDim(vectors, d) && PresentHaveDim(s.value, d) then Step(vectors, d, s.value) else (s, true)
  }

  /** From a well-formed centroid list, a round is Step. */
  lemma RoundIsStep(vectors: seq<Vector>, d: nat, cs: seq<Centroid>)
    requires HasDim(vectors, d) && PresentHaveDim(cs, d)
    ensures Round(vectors, d)(Success(cs)) == Step(vectors, d, cs)
  {
  }

  /** The loop body of kmeans: assign, update, then the convergence test. */
  method LloydRound(centroids: seq<Centroid>, vectors: seq<Vector>, d: nat) returns (next: Result<seq<Centroid>, Error>, done: bool)
    requires HasDim(vectors, d) && PresentHaveDim(centroids, d)
    ensures (next, done) == Step(vectors, d, centroids)
  {
    var oldCentroids := centroids;
    var clusters := AssignToClusters(centroids, vectors, d);
    if clusters.Failure? {
      return Failure(clusters.error), true;
    }
    var news := UpdateCentroids(clusters.value);
    assert news == NewCentroids(clusters.value);
    var finished := FinishIter(oldCentroids, news);
    if finished.Failure? {
      return Failure(finished.error), true;
    }
    return Success(news), finished.value;
  }

  /** vectors[:k]: the first k vectors (all of them when there are fewer). */
  function Seeds(vectors: seq<Vector>, k: nat): (cs: seq<Centroid>)
    ensures |cs| == if k <= |vectors| then k else |vectors|
    ensures forall i :: 0 <= i < |cs| ==> cs[i] == Some(vectors[i])
  {
    var firsts := vectors[..if k <= |vectors| then k else |vectors|];
    seq(|firsts|, i requires 0 <= i < |firsts| => Some(firsts[i]))
  }

  /**
   * kmeans (kmeans.py:118-135): seed with vectors[:k], then run at most iter
   * rounds, leaving the loop after the first round whose finishIter is True.
   * Returns the final state and the number of rounds run.
   */
  method KMeans(k: nat, iter: nat, vectors: seq<Vector>, d: nat) returns (r: Result<seq<Centroid>, Error>, rounds: nat)
    requires HasDim(vectors, d)
    ensures (r, rounds) == Iterate(Round(vectors, d), Success(Seeds(vectors, k)), iter)
  {
    var centroids := Seeds(vectors, k);
    ghost var start := Success(centroids);
    LoopStart(Round(vectors, d), start, iter);
    var state: Result<seq<Centroid>, Error> := Success(centroids);
    var done := false;
    var i := 0;
    while i < iter && !done
      invariant 0 <= i <= iter
      invariant !done ==> state.Success? && PresentHaveDim(state.value, d)
      invariant LoopState(Round(vectors, d), start, iter, state, i, done)
      decreases iter - i
    {
      ghost var before := state;
      state, done := LloydRound(state.value, vectors, d);
      LoopAdvance(Round(vectors, d), start, iter, before, i);
      i := i + 1;
    }
    LoopExit(Round(vectors, d), start, iter, state, i, done);
    r := state;
    rounds := i;
  }

  /**
   * A placeholder left by an empty cluster ends the run in the next round:
   * with vectors that have coordinates, assignToClusters raises TypeError on it.
   */
  lemma PlaceholderRaises(vectors: seq<Vector>, d: nat, cs: seq<Centroid>)
    requires HasDim(vectors, d) && PresentHaveDim(cs, d)
    requires |vectors| > 0 && |cs| > 0 && d > 0 && HasPlaceholder(cs)
    ensures Step(vectors, d, cs) == (Failure(TypeError), true)
    ensures Round(vectors, d)(Success(cs)) == (Failure(TypeError), true)
  {
  }

  /** A run state whose centroid list, if any, is well formed. */
  predicate WellFormed(vectors: seq<Vector>, d: nat, s: Result<seq<Centroid>, Error>) {
    HasDim(vectors, d) && (s.Success? ==> PresentHaveDim(s.value, d))
  }

  /**
   * In kmeans, the round from the state after t rounds ends the loop exactly
   * when it raises or finishIter returns True; an exception already raised
   * ends it too.
   */
  lemma StopsOnFinish(vectors: seq<Vector>, d: nat, cs: seq<Centroid>, t: nat)
    requires HasDim(vectors, d) && PresentHaveDim(cs, d)
    ensures var s := Trajectory(Round(vectors, d), Success(cs), t);
      && (s.Success? ==> PresentHaveDim(s.value, d) && (DoneAt(Round(vectors, d), Success(cs), t) <==> Step(vectors, d, s.value).1))
      && (s.Failure? ==> DoneAt(Round(vectors, d), Success(cs), t))
  {
    forall x | WellFormed(vectors, d, x)
      ensures WellFormed(vectors, d, Round(vectors, d)(x).0)
    {
    }
    TrajectoryKeeps(Round(vectors, d), x => WellFormed(vectors, d, x), Success(cs), t);
  }

  /** A run state that is the centroid list or an exception raised inside kmeans. */
  predicate RaisedOnly(s: Result<seq<Centroid>, Error>) {
    s.Success? || s.error == TypeError || s.error == IndexError
  }

  /** kmeans itself fails only by raising TypeError or IndexError, never with a range-check error. */
  lemma IterateRaisesOnly(vectors: seq<Vector>, d: nat, s: Result<seq<Centroid>, Error>, remaining: nat)
    requires RaisedOnly(s)
    ensures RaisedOnly(Iterate(Round(vectors, d), s, remaining).0)
  {
    forall x | RaisedOnly(x)
      ensures RaisedOnly(Round(vectors, d)(x).0)
    {
      RoundRaisesOnly(vectors, d, x);
    }
    IterateKeeps(Round(vectors, d), RaisedOnly, s, remaining);
  }

  /** One round keeps RaisedOnly. */
  lemma RoundRaisesOnly(vectors: seq<Vector>, d: nat, s: Result<seq<Centroid>, Error>)
    requires RaisedOnly(s)
    ensures RaisedOnly(Round(vectors, d)(s).0)
  {
    if s.Success? && HasDim(vectors, d) && PresentHaveDim(s.value, d) {
      var r := Step(vectors, d, s.value);
      assert Round(vectors, d)(s) == r;
    }
  }

  /** The range checks of __main__: iter first, and only when given; then k. */
  function Validate(k: int, iterArg: Option<int>, N: nat): Option<Error> {
    if iterArg.Some? && !(1 < iterArg.value < MAX_ITER) then Some(InvalidIteration)
    else if !(1 < k < N) then Some(InvalidClusters)
    else None
  }

  /**
   * __main__ after argument parsing and reading the vectors: the range checks,
   * then kmeans with the given iteration cap or DEFAULT_ITERATIONS.
   */
  method Run(vectors: seq<Vector>, d: nat, k: int, iterArg: Option<int>) returns (r: Result<seq<Centroid>, Error>)
    requires HasDim(vectors, d)
    ensures r == Failure(InvalidIteration) <==> iterArg.Some? && !(1 < iterArg.value < MAX_ITER)
    ensures r == Failure(InvalidClusters) <==>
      (iterArg.None? || 1 < iterArg.value < MAX_ITER) && !(1 < k < |vectors|)
    ensures Validate(k, iterArg, |vectors|).None? ==>
      r == Iterate(Round(vectors, d), Success(Seeds(vectors, k)), IterationCap(iterArg)).0
  {
    var invalid := Validate(k, iterArg, |vectors|);
    if invalid.Some? {
      return Failure(invalid.value);
    }
    var iter := IterationCap(iterArg);
    var centroids, _ := KMeans(k, iter, vectors, d);
    IterateRaisesOnly(vectors, d, Success(Seeds(vectors, k)), iter);
    return centroids;
  }
}
