/**
 * The shape of both main loops: run a round at most `remaining` times and stop
 * right after the first round that reports it is done (converged, or ended by
 * an error). A round maps a state to the next state and that flag.
 */
module Iteration {

  /** The final state and the number of rounds run. */
  function Iterate<S>(round: S -> (S, bool), s: S, remaining: nat): (r: (S, nat))
    decreases remaining
  {
    if remaining == 0 then (s, 0)
    else
      var (next, done) := round(s);
      if done then (next, 1)
      else
        var rest := Iterate(round, next, remaining - 1);
        (rest.0, rest.1 + 1)
  }

  /** With rounds left, a round that reports done ends the loop. */
  lemma IterateDone<S>(round: S -> (S, bool), s: S, remaining: nat)
    requires remaining > 0 && round(s).1
    ensures Iterate(round, s, remaining) == (round(s).0, 1)
  {
  }

  /** With rounds left, a round that does not report done is followed by the rest of the loop. */
  lemma IterateGoesOn<S>(round: S -> (S, bool), s: S, remaining: nat)
    requires remaining > 0 && !round(s).1
    ensures Iterate(round, s, remaining) ==
      (Iterate(round, round(s).0, remaining - 1).0, Iterate(round, round(s).0, remaining - 1).1 + 1)
  {
  }

  /** The state after t rounds from s, ignoring the flag. */
  function Trajectory<S>(round: S -> (S, bool), s: S, t: nat): S
    decreases t
  {
    if t == 0 then s else Trajectory(round, round(s).0, t - 1)
  }

  /** Whether the round started from the state after t rounds reports done. */
  predicate DoneAt<S>(round: S -> (S, bool), s: S, t: nat) {
    round(Trajectory(round, s, t)).1
  }

  /** The loop runs at most `remaining` rounds, and at least one when any is allowed. */
  lemma {:induction false} IterateBound<S>(round: S -> (S, bool), s: S, remaining: nat)
    ensures Iterate(round, s, remaining).1 <= remaining
    ensures remaining > 0 ==> Iterate(round, s, remaining).1 > 0
    decreases remaining
  {
    if remaining > 0 && !round(s).1 {
      IterateBound(round, round(s).0, remaining - 1);
    }
  }

  /** A property of states that every round keeps holds of the final state. */
  lemma {:induction false} IterateKeeps<S>(round: S -> (S, bool), inv: S -> bool, s: S, remaining: nat)
    requires forall x :: inv(x) ==> inv(round(x).0)
    requires inv(s)
    ensures inv(Iterate(round, s, remaining).0)
    decreases remaining
  {
    if remaining > 0 && !round(s).1 {
      IterateKeeps(round, inv, round(s).0, remaining - 1);
    }
  }

  /** A property of states that every round keeps holds after any number of rounds. */
  lemma {:induction false} TrajectoryKeeps<S>(round: S -> (S, bool), inv: S -> bool, s: S, t: nat)
    requires forall x :: inv(x) ==> inv(round(x).0)
    requires inv(s)
    ensures inv(Trajectory(round, s, t))
    decreases t
  {
    if t > 0 {
      TrajectoryKeeps(round, inv, round(s).0, t - 1);
    }
  }

  /**
   * Two loops in step: if from every good state the second round on the image
   * under f is the image of the first round, with the same flag, and every
   * state the first loop runs a round from is good, the second loop ends on
   * the image of the first one's result after as many rounds.
   */
  lemma {:induction false} IterateSimulates<S, T>(r1: S -> (S, bool), r2: T -> (T, bool), f: S -> T, good: S -> bool, s: S, n: nat)
    requires forall x :: good(x) ==> r2(f(x)) == (f(r1(x).0), r1(x).1)
    requires forall t :: 0 <= t < Iterate(r1, s, n).1 ==> good(Trajectory(r1, s, t))
    ensures Iterate(r2, f(s), n) == (f(Iterate(r1, s, n).0), Iterate(r1, s, n).1)
    decreases n
  {
    if n > 0 {
      IterateBound(r1, s, n);
      assert Trajectory(r1, s, 0) == s;
      if !r1(s).1 {
        var next := r1(s).0;
        forall t | 0 <= t < Iterate(r1, next, n - 1).1
          ensures good(Trajectory(r1, next, t))
        {
          assert Trajectory(r1, s, t + 1) == Trajectory(r1, next, t);
        }
        IterateSimulates(r1, r2, f, good, next, n - 1);
      }
    }
  }

  /**
   * The loop ends on the state after the rounds it ran, runs no round after
   * the first one that reports done, and stops before the cap only then.
   */
  lemma {:induction false} IterateStopsAtFirstDone<S>(round: S -> (S, bool), s: S, remaining: nat)
    ensures Iterate(round, s, remaining).0 == Trajectory(round, s, Iterate(round, s, remaining).1)
    ensures forall t :: 0 <= t < Iterate(round, s, remaining).1 - 1 ==> !DoneAt(round, s, t)
    ensures 0 < Iterate(round, s, remaining).1 < remaining ==>
      DoneAt(round, s, Iterate(round, s, remaining).1 - 1)
    decreases remaining
  {
    if remaining > 0 {
      var next := round(s).0;
      assert Trajectory(round, s, 1) == Trajectory(round, next, 0);
      if !round(s).1 {
        IterateStopsAtFirstDone(round, next, remaining - 1);
        IterateBound(round, next, remaining - 1);
        var rounds := Iterate(round, next, remaining - 1).1;
        assert Trajectory(round, s, rounds + 1) == Trajectory(round, next, rounds);
        forall t | 0 <= t < rounds
          ensures !DoneAt(round, s, t)
        {
          if t > 0 {
            assert Trajectory(round, s, t) == Trajectory(round, next, t - 1);
            assert DoneAt(round, s, t) == DoneAt(round, next, t - 1);
          } else {
            assert Trajectory(round, s, 0) == s;
          }
        }
      }
    }
  }

  /**
   * The state of a loop after i of at most `cap` rounds: either a round
   * reported done and the loop's result (s, i) is reached, or the rest of the
   * loop is Iterate from s with cap - i rounds left.
   */
  ghost predicate LoopState<S>(round: S -> (S, bool), start: S, cap: nat, s: S, i: nat, done: bool)
    requires i <= cap
  {
    if done then 0 < i && Iterate(round, start, cap) == (s, i)
    else Iterate(round, start, cap) == (Iterate(round, s, cap - i).0, Iterate(round, s, cap - i).1 + i)
  }

  /** A loop that has run no round is in LoopState. */
  lemma LoopStart<S>(round: S -> (S, bool), start: S, cap: nat)
    ensures LoopState(round, start, cap, start, 0, false)
  {
  }

  /** One more round keeps LoopState. */
  lemma LoopAdvance<S>(round: S -> (S, bool), start: S, cap: nat, s: S, i: nat)
    requires i < cap && LoopState(round, start, cap, s, i, false)
    ensures LoopState(round, start, cap, round(s).0, i + 1, round(s).1)
  {
  }

  /** When the loop stops, its state and round count are those of Iterate. */
  lemma LoopExit<S>(round: S -> (S, bool), start: S, cap: nat, s: S, i: nat, done: bool)
    requires i <= cap && LoopState(round, start, cap, s, i, done)
    requires done || i == cap
    ensures Iterate(round, start, cap) == (s, i)
  {
  }
}
