# k-means engine, modelled in Dafny

This project models the clustering engine of a small k-means program. The
program exists twice: `kmeans.c` and `kmeans.py`. Both run Lloyd's algorithm:

- seed K centroids with the first K data points;
- assign every point to its nearest centroid, where the first minimum wins;
- move each centroid to the mean of its points;
- stop when no centroid moved farther than EPSILON (0.001), or after `iter`
  rounds, whichever comes first.

Coordinates are exact `real`s and vectors are `seq<real>`. Distances are
squared sums with no square root. For non-negative values, squaring keeps
order and the threshold test, so the argmin and both convergence tests come
out the same (`Vectors.RootOrder`, `Vectors.RootThreshold`).

Modules:

- `Wrappers`: `Option` and `Result`.
- `Vectors`: `SqDist` (sum of squared differences over the first d
  coordinates) and `EPSILON`.
- `Clustering`: definitions shared by both versions.
  - `Nearest`: the first nearest centroid.
  - `Assignment`: every point's cluster index.
  - `Count`, `CoordSum`, `ClusterMean`: per-cluster counts, sums and means over an assignment.
  - `Members`, `Mean`: a cluster's list of points and its mean.
  - The run limits and the error kinds.
- `Iteration`: the bounded loop both versions share.
  - `Iterate` runs a round at most `remaining` times and stops right after
    the first round that reports done.
  - Lemmas about the number of rounds and stopping.
  - Generic lemmas for invariants and simulation.
  - Ghost loop-state lemmas the two imperative loops use.
- `KMeansC`: kmeans.c, in imperative form.
  - The centroids are an `array<Vector>` that `UpdateCentroids` overwrites in place.
  - `cluster_assignments` is an `array<int>` that `AssignClusters` fills.
  - `sums` and `counts` are an `array2<real>` and an `array<int>`, filled by one pass over the points.
  - The linked `struct cord`/`struct vector` layout is kept as datatypes for `deep_clone_*`.
- `KMeansPy`: kmeans.py. Each function is a method over sequences, proved
  against a specification function.
  - The `-1` placeholder for an empty cluster is `None` in a
    `seq<Option<Vector>>`.
  - Where Python raises on that placeholder or on an empty list, the model
    returns `Failure(TypeError)` or `Failure(IndexError)`, at the point Python
    would raise.
- `Agreement`: how the two versions relate.
  - With no empty cluster, their rounds compute the same centroids.
  - They differ only in the convergence test: strict `<` in Python, `<=` in C.
  - Their argument checks accept the same parsed arguments. When both K and a given iter are bad, they can report different errors (`Agreement.ErrorsDifferIff`).
- `Boundary`: a concrete run, points 0, 10 and 0.002 with K = 2, on which the
  versions part. In exact arithmetic, the C loop stops after one round and the
  Python loop after two.

## Model

| member | source | states |
|---|---|---|
| Vectors.SqDist | kmeans.c:36-48 | The (squared) distance over the first d coordinates is never negative |
| Vectors.SqDistZeroIff | kmeans.c:36-48 | The distance is 0 exactly when the first d coordinates of the two vectors agree |
| Vectors.SqDistSelf | kmeans.c:36-48 | A vector is at distance 0 from itself |
| Vectors.SqDistSymmetric | kmeans.py:11-24 | The distance does not depend on the order of its arguments |
| Vectors.SqDistPrefix | kmeans.c:41-46 | Only the first d coordinates are read: vectors agreeing on them have the same distance |
| Vectors.RootOrder | kmeans.c:48 | Comparing two distances by their squares gives the same `<` and `<=` answers as comparing the roots |
| Vectors.RootThreshold | kmeans.c:292 | A root distance is `<= EPSILON` (resp. `< EPSILON`) exactly when its square is `<= EPSILON^2` (resp. `< EPSILON^2`) |
| Clustering.Nearest | kmeans.c:210-223 | The scan's result is a nearest centroid, and every lower-indexed centroid is strictly farther |
| Clustering.ScanStep | kmeans.c:215-222 | Moving to centroid j only on a strictly smaller distance extends "first nearest among the first j" to j + 1 |
| Clustering.FirstNearestUnique | kmeans.c:219 | With the first-minimum tie-break, the nearest centroid is unique |
| Clustering.IsNearest | kmeans.py:42-50 | Any scan that finds a first nearest centroid finds the same index as Nearest |
| Clustering.TieGoesToLowerIndex | kmeans.c:219 | A point equidistant from centroids 0 and 1 goes to 0 |
| Clustering.Assignment | kmeans.c:207-225 | One index per point, each in range and the point's first nearest centroid |
| Clustering.CountsSumToN | kmeans.c:267-279 | When every index lies in [0, k), the k cluster counts add up to the number of points |
| Clustering.MembersInOrder | kmeans.py:37-52 | A cluster's list holds exactly the points assigned to it, once each, in input order; its length is the count |
| Clustering.MembersSum | kmeans.py:67-71 | Summing coordinate j over a cluster's list gives the per-cluster sum over the assignment |
| Clustering.MeanOfMembers | kmeans.c:282-288 | For a non-empty cluster, the mean of its list equals the sum over the assignment divided by the count |
| KMeansC.DeepCloneCords | kmeans.c:75-97 | The clone holds the same coordinate sequence, and is NULL exactly when the source is |
| KMeansC.DeepCloneVector | kmeans.c:51-73 | NULL gives NULL; otherwise the clone has the same coordinates and `next == NULL` |
| KMeansC.SquaredEuclideanDistance | kmeans.c:30-49 | The loop's sum is the squared distance over exactly the first d coordinates |
| KMeansC.InitializeCentroids | kmeans.c:182-195 | Afterwards centroid i equals data point i for every i < K |
| KMeansC.ClosestCentroid | kmeans.c:209-223 | The inner scan returns the first nearest centroid of the point |
| KMeansC.AssignClusters | kmeans.c:197-228 | Every `cluster_assignments[i]` is point i's first nearest centroid (so in [0, K)); only that array changes |
| KMeansC.CountsAddUp | kmeans.c:266-279 | The counts of an assignment pass add up to N |
| KMeansC.AccumulateSums | kmeans.c:237-279 | Fresh K-by-d sums and K counts that equal the per-cluster coordinate sums and sizes over the assignment |
| KMeansC.UpdateCentroids | kmeans.c:230-324 | Every centroid with members is overwritten by their mean; the result is true iff no centroid moved more than EPSILON |
| KMeansC.Step | kmeans.c:436-444 | A round keeps K centroids of dimension d |
| KMeansC.RoundKeepsShape | kmeans.c:436-444 | Every state the main loop reaches has K centroids of dimension d |
| KMeansC.StopsOnConvergence | kmeans.c:436-444 | The main loop stops after a round exactly when that round's update reports that all centroids moved at most EPSILON |
| KMeansC.LloydRound | kmeans.c:439-443 | Assign followed by update is one round of the loop: new centroids and flag as Round gives them, and the assignment array holds the round's Assignment |
| KMeansC.KMeans | kmeans.c:432-444 | The loop's final centroids and round count are those of Iterate from the first K points, with at most `iter` rounds |
| KMeansC.Validate | kmeans.c:376-414 | The checks pass exactly when 1 < K < N and 1 < iter < 1000, and otherwise report one of the two range errors |
| KMeansC.Run | kmeans.c:376-414 | A run proceeds iff 1 < K < N and 1 < iter < 1000. Otherwise the first failing check reports, in this order: K not positive (isInteger), a given iter not positive (isInteger), K out of range, iter out of range. On success the result is the loop's |
| Iteration.IterateBound | kmeans.c:436 | The loop runs at most `iter` rounds, and at least one when `iter > 0` |
| Iteration.IterateStopsAtFirstDone | kmeans.py:126-133 | The result is the state after the rounds run; no round before the last reported done; stopping before the cap means the last round did |
| Iteration.IterateSimulates | kmeans.py:126-133 | Two loops whose rounds correspond on every state reached end on corresponding states after the same number of rounds |
| KMeansPy.EucDistance | kmeans.py:11-24 | The loop's sum is the squared distance over the coordinates of `vector1` |
| KMeansPy.Grouping | kmeans.py:33-35 | One list of d-dimensional vectors per centroid |
| KMeansPy.GroupingSize | kmeans.py:35-52 | The k lists together hold exactly `len(vectors)` vectors |
| KMeansPy.GroupingInOrder | kmeans.py:37-52 | List c holds, in increasing input position, exactly the vectors whose first nearest centroid is c |
| KMeansPy.ClosestCentroid | kmeans.py:39-50 | Starting from inf and -1: TypeError iff a placeholder meets a vector with coordinates; otherwise the first nearest centroid |
| KMeansPy.AssignToClusters | kmeans.py:27-54 | No vectors: k empty lists; no centroids: IndexError; a placeholder (d > 0): TypeError; otherwise the grouping by first nearest centroid |
| KMeansPy.NewCentroid | kmeans.py:57-77 | An empty cluster raises IndexError; otherwise the result is the coordinate-wise mean, of the first vector's dimension |
| KMeansPy.UpdateCentroids | kmeans.py:80-97 | k entries: entry i is the placeholder when cluster i is empty and otherwise `newCentroid(clusters[i])` |
| KMeansPy.NewCentroids | kmeans.py:86-97 | k entries; a present entry comes from a non-empty cluster and has its dimension |
| KMeansPy.FinishFrom | kmeans.py:106-115 | finishIter can only fail by raising TypeError |
| KMeansPy.FinishTrueIff | kmeans.py:106-115 | finishIter returns True iff at every index the old entry is present and moved strictly less than EPSILON |
| KMeansPy.FinishAllPresent | kmeans.py:106-115 | With no placeholder, finishIter returns whether every centroid moved strictly less than EPSILON |
| KMeansPy.FinishIter | kmeans.py:100-115 | The loop with its early `return False` computes Finish, raising where Python raises |
| KMeansPy.Step | kmeans.py:128-133 | A round keeps k well-formed entries, or ends the run with TypeError or IndexError |
| KMeansPy.LloydRound | kmeans.py:128-133 | Assign, update and the convergence test together compute Step |
| KMeansPy.Seeds | kmeans.py:124 | The seeds are `vectors[:k]`: entry i is vector i, min(k, N) of them |
| KMeansPy.KMeans | kmeans.py:118-135 | The loop's final state and round count are those of Iterate from `vectors[:k]`, with at most `iter` rounds |
| KMeansPy.StopsOnFinish | kmeans.py:126-133 | The loop breaks after a round exactly when that round raises or its finishIter returns True |
| KMeansPy.PlaceholderRaises | kmeans.py:87-95 | With at least one vector and vectors that have coordinates, a placeholder left by an empty cluster makes the next round raise TypeError |
| KMeansPy.IterateRaisesOnly | kmeans.py:118-135 | The loop ends, if not on centroids, only with TypeError or IndexError |
| KMeansPy.Run | kmeans.py:160-189 | An out-of-range iter that is given is reported first, then k out of range; with both in range the result is kmeans' |
| Agreement.RoundsAgree | kmeans.py:128-133 | With no empty cluster, a Python round from the C centroids raises nothing, yields the C round's centroids, and stops iff all moved strictly less than EPSILON |
| Agreement.RoundPairs | kmeans.c:439-443 | On a round with no empty cluster and no move of exactly EPSILON, the two rounds agree, flag included |
| Agreement.RunsAgree | kmeans.c:436-444 | When no round of the C run has an empty cluster or a move of exactly EPSILON, the Python run ends on the same centroids after the same number of rounds |
| Agreement.FlagsAgree | kmeans.py:112 | When no centroid moved by exactly EPSILON, the strict and the non-strict convergence tests agree |
| Agreement.StrictImpliesWithin | kmeans.c:292 | Python's test passing implies C's test passes |
| Agreement.BoundaryMove | kmeans.c:292 | A move of exactly EPSILON passes C's test and fails Python's |
| Agreement.SameArgumentsAccepted | kmeans.c:376-414 | On already-parsed integers, both versions accept exactly the same K and iter |
| Agreement.ErrorOrderDiffers | kmeans.py:163-186 | With K = 1 and iter = 1, C reports the cluster count and Python the iteration cap; with K = 1 and iter = 0 both report the iteration cap |
| Agreement.ErrorsDifferIff | kmeans.c:376-414 | The versions report different errors exactly when a given iter and K are both out of range, unless K is positive and iter is not |
| Boundary.CFirstRound | kmeans.c:439-443 | On 0, 10, 0.002 with seeds 0 and 10, the first C round gives 0.001 and 10 and reports converged |
| Boundary.PyFirstRound | kmeans.py:128-133 | The same Python round gives the same centroids and does not finish |
| Boundary.PySecondRound | kmeans.py:128-133 | The second Python round moves nothing and finishes |
| Boundary.CStopsAfterOne | kmeans.c:432-444 | In exact arithmetic, the C loop on the example stops after one round, on 0.001 and 10 |
| Boundary.PyStopsAfterTwo | kmeans.py:118-135 | In exact arithmetic, the Python loop on the example stops after two rounds, on the same centroids |

## Left out

- Reading input: `create_datapoints` (kmeans.c:121-180) and `read_data` (kmeans.py:138-149). The data arrive as a `seq<Vector>` with a uniform dimension d. Ragged input is not modelled.
- Parsing the arguments: `isInteger` and the `strtod` cast (kmeans.c:99-119, 377-395), and `int(...)` (kmeans.py:160, 165). K and iter arrive as already-parsed integers; an absent iter is `None`. The one part of `isInteger` that is modelled is its rejection of values that are not positive (kmeans.c:114, checked at kmeans.c:377 and 388), in `KMeansC.Validate`. The two parsers do not accept the same texts: kmeans.c takes "2.0" as 2 (kmeans.c:99-119, 383), while Python's `int("2.0")` raises (kmeans.py:160). So `Agreement.SameArgumentsAccepted` is about parsed integers only.
- The argument-count and usage checks (kmeans.c:371-374, kmeans.py:155-157).
- Printing the centroids (kmeans.c:456-469, kmeans.py:192-195).
- `malloc`/`free`, `free_memory`, and the allocation-failure exits. Dafny's heap and sequences make these moot.
- Floating point: coordinates are exact reals, so IEEE rounding and the effect of summation order are not modelled. Sums are still taken in point order, as in both sources.
- `sqrt`: every distance is the squared sum. `Vectors.RootOrder` and `Vectors.RootThreshold` show that the nearest-centroid choice and both EPSILON tests are unchanged by this.
- KMeansC.UpdateCentroids: a centroid with no members keeps its old position. kmeans.c divides by a zero count there (kmeans.c:286), which gives NaN coordinates; Dafny reals have no NaN. In that round the convergence flag still matches C, because a NaN distance fails `> EPSILON` just as a zero distance does. From the next round on, the model no longer follows kmeans.c. A NaN centroid 0 makes `dist < min_dist` false for every later centroid, so every point goes to cluster 0 (kmeans.c:210-222). A NaN centroid j > 0 is never chosen. In the model, the kept old position goes on competing.
- KMeansC.SquaredEuclideanDistance and KMeansPy.EucDistance return the squared distance, not its root.
- KMeansC.ClosestCentroid, KMeansC.AccumulateSums, KMeansC.LloydRound, KMeansPy.ClosestCentroid and KMeansPy.LloydRound are not functions of the source. Each is a piece of a source loop body (kmeans.c:210-223, 237-279, 439-443; kmeans.py:39-50, 128-133), split out as a method with its own contract.
- KMeansC.Round and KMeansPy.Round carry a fallback branch for malformed states: wrong dimension, no centroids, or an exception already raised. The loops never reach it (RoundKeepsShape, StopsOnFinish).
- Python exceptions are modelled only as far as the error kinds `TypeError` and `IndexError`; messages and tracebacks are left out. With 0-dimensional vectors, a placeholder met in assignToClusters, or as the new entry of finishIter, raises nothing, because `range(len(vector1))` is empty before any subscript. As the old entry of finishIter it raises TypeError at `len(-1)` (kmeans.py:110, 18), at any dimension (`KMeansPy.FinishFrom`).
- Both sources reject `iter <= 1` (kmeans.c:410, kmeans.py:168), so no run has a cap of 1.
- kmeans.c checks that K and then a given iter are positive (kmeans.c:377, 388), and then checks K's range before iter's (kmeans.c:405-414). kmeans.py checks a given iter's range before k's (kmeans.py:168, 184). Both orders are modelled (`Agreement.ErrorOrderDiffers`, `Agreement.ErrorsDifferIff`).
- Neither source reports whether the loop ended by convergence or by the cap; the model returns the round count from `KMeans` instead.
