/**
 * What the tabu search promises. The loop lemmas hold for any loop body
 * that obeys a few rules; the lemmas about Step show that the search's own
 * body obeys them, and SearchFromStart puts the two together.
 */
module TabuRuns {
  import opened Wrappers
  import opened Days
  import opened Scoring
  import opened Moves
  import opened Tabu

  /** "Not better" is transitive: (penalty, total) is a lexicographic order. */
  lemma NotBetterTrans(x: ScheduleScore, y: ScheduleScore, z: ScheduleScore)
    requires !Better(x, y) && !Better(y, z)
    ensures !Better(x, z)
  {
  }

  /** The state an iteration ends in, when it moved or converged. */
  function After(st: StepResult): SearchState
    requires st.Moved? || st.Halted?
  {
    if st.Moved? then st.next else st.last
  }

  // The rules a loop body obeys, one predicate per rule.

  /** The body never stops for the iteration limit itself. */
  ghost predicate NoLimitHalt(c: Constraints, step: StepFn)
    requires KeepsSized(c, step)
  {
    forall s :: Sized(c, s) ==> !(step(s).Halted? && step(s).reason == IterationLimit)
  }

  /** It converges only with a best rotation without penalty and the counter at the limit. */
  ghost predicate ConvergeRule(c: Constraints, limitNotImproved: int, step: StepFn)
    requires KeepsSized(c, step)
  {
    forall s :: Sized(c, s) && step(s).Halted? && step(s).reason == Converged ==>
      ScoreOf(c, step(s).last.best).penalty == 0 && step(s).last.notImproved >= limitNotImproved
  }

  /**
   * It stops for want of moves only when every neighbour of the current
   * rotation is tabu, and then keeps its state.
   */
  ghost predicate NoNeighborsRule(c: Constraints, step: StepFn)
    requires KeepsSized(c, step)
  {
    forall s :: Sized(c, s) && step(s).Halted? && step(s).reason == NoNeighbors ==>
      step(s).last == s && NextRotation(c, s.current, s.tabu) == Ok(None)
  }

  /** Each move, and the last move of a converged search, goes to a neighbour. */
  ghost predicate AdjacentRule(c: Constraints, step: StepFn)
    requires KeepsSized(c, step)
  {
    forall s :: Sized(c, s) && (step(s).Moved? || (step(s).Halted? && step(s).reason == Converged)) ==>
      Adjacent(c, s.current, After(step(s)).current)
  }

  /**
   * The best rotation is replaced only by a strictly better one: the new
   * current rotation does not beat the new best, nor does the old best,
   * and the new best is the old one or the new current one.
   */
  ghost predicate BestRule(c: Constraints, step: StepFn)
    requires KeepsSized(c, step)
  {
    forall s :: Sized(c, s) && (step(s).Moved? || (step(s).Halted? && step(s).reason == Converged)) ==>
      && !Better(ScoreOf(c, After(step(s)).current), ScoreOf(c, After(step(s)).best))
      && !Better(ScoreOf(c, s.best), ScoreOf(c, After(step(s)).best))
      && (After(step(s)).best == s.best || After(step(s)).best == After(step(s)).current)
  }

  /** It fails exactly on the unscannable horizon, and moves only on a horizon of two days or more. */
  ghost predicate FaultRule(c: Constraints, step: StepFn)
    requires KeepsSized(c, step)
  {
    forall s :: Sized(c, s) ==>
      && (step(s).Faulted? <==> Unscannable(c, s.current))
      && (step(s).Faulted? ==> step(s).fault == UnboundIndex)
      && (step(s).Moved? ==> |s.current| >= 2)
  }

  /**
   * A move records its rotation in the tabu list; the converging move
   * leaves the list as it was.
   */
  ghost predicate TabuRule(c: Constraints, tabuSize: int, step: StepFn)
    requires KeepsSized(c, step)
  {
    forall s :: Sized(c, s) ==>
      && (step(s).Moved? ==> step(s).next.tabu == Enqueue(s.tabu, step(s).next.current, tabuSize))
      && (step(s).Halted? && step(s).reason == Converged ==> step(s).last.tabu == s.tabu)
  }

  // The loop lemmas.

  /** The loop ends within max_iterations + 1 iterations in all, in a state spanning the horizon. */
  lemma {:induction false} LoopIterations(c: Constraints, step: StepFn, max: int, s: SearchState, count: nat)
    requires KeepsSized(c, step) && Sized(c, s) && count <= IterationBound(max)
    requires Loop(c, step, max, s, count).Finished?
    ensures Sized(c, Loop(c, step, max, s, count).last)
    ensures count <= Loop(c, step, max, s, count).iterations <= IterationBound(max)
    decreases max + 1 - count
  {
    if count <= max && step(s).Moved? {
      LoopIterations(c, step, max, step(s).next, count + 1);
    }
  }

  /** The loop stops at the iteration limit only after max_iterations + 1 iterations. */
  lemma {:induction false} LoopLimit(c: Constraints, step: StepFn, max: int, s: SearchState, count: nat)
    requires KeepsSized(c, step) && NoLimitHalt(c, step) && Sized(c, s) && count <= IterationBound(max)
    requires Loop(c, step, max, s, count).Finished? && Loop(c, step, max, s, count).reason == IterationLimit
    ensures Loop(c, step, max, s, count).iterations == IterationBound(max)
    decreases max + 1 - count
  {
    if count <= max && step(s).Moved? {
      LoopLimit(c, step, max, step(s).next, count + 1);
    }
  }

  /** The loop converges only with a best rotation without penalty and the counter at the limit. */
  lemma {:induction false} LoopConverged(c: Constraints, limit: int, step: StepFn, max: int, s: SearchState, count: nat)
    requires KeepsSized(c, step) && ConvergeRule(c, limit, step) && Sized(c, s)
    requires Loop(c, step, max, s, count).Finished? && Loop(c, step, max, s, count).reason == Converged
    ensures |Loop(c, step, max, s, count).last.best| > 0
    ensures ScoreOf(c, Loop(c, step, max, s, count).last.best).penalty == 0
    ensures Loop(c, step, max, s, count).last.notImproved >= limit
    decreases max + 1 - count
  {
    if count <= max && step(s).Moved? {
      LoopConverged(c, limit, step, max, step(s).next, count + 1);
    }
  }

  /** The loop stops for want of moves only when every neighbour of its last rotation is tabu. */
  lemma {:induction false} LoopNoNeighbors(c: Constraints, step: StepFn, max: int, s: SearchState, count: nat)
    requires KeepsSized(c, step) && NoNeighborsRule(c, step) && Sized(c, s)
    requires Loop(c, step, max, s, count).Finished? && Loop(c, step, max, s, count).reason == NoNeighbors
    ensures Sized(c, Loop(c, step, max, s, count).last)
    ensures NextRotation(c, Loop(c, step, max, s, count).last.current, Loop(c, step, max, s, count).last.tabu) == Ok(None)
    decreases max + 1 - count
  {
    if count <= max && step(s).Moved? {
      LoopNoNeighbors(c, step, max, step(s).next, count + 1);
    }
  }

  /** The rotations moved through end at the last current rotation of the loop. */
  lemma {:induction false} LoopWalkEnd(c: Constraints, step: StepFn, max: int, s: SearchState, count: nat)
    requires KeepsSized(c, step) && NoLimitHalt(c, step) && NoNeighborsRule(c, step) && Sized(c, s)
    requires Loop(c, step, max, s, count).Finished?
    ensures var w := LoopVisited(c, step, max, s, count); w[|w| - 1] == Loop(c, step, max, s, count).last.current
    decreases max + 1 - count
  {
    if count <= max {
      var st := step(s);
      if st.Moved? {
        LoopWalkEnd(c, step, max, st.next, count + 1);
        assert LoopVisited(c, step, max, s, count) == [s.current] + LoopVisited(c, step, max, st.next, count + 1);
      } else if st.Halted? && st.reason != Converged {
        assert st.reason == NoNeighbors && st.last == s;
      }
    }
  }

  /** The rotations moved through form a walk of neighbourhood moves, each spanning the horizon. */
  lemma {:induction false} LoopWalk(c: Constraints, step: StepFn, max: int, s: SearchState, count: nat)
    requires KeepsSized(c, step) && AdjacentRule(c, step) && Sized(c, s)
    ensures IsWalk(c, LoopVisited(c, step, max, s, count))
    ensures forall k :: 0 <= k < |LoopVisited(c, step, max, s, count)| ==> |LoopVisited(c, step, max, s, count)[k]| == c.numDays
    decreases max + 1 - count
  {
    if count <= max {
      var st := step(s);
      if st.Moved? {
        LoopWalk(c, step, max, st.next, count + 1);
        var w := LoopVisited(c, step, max, st.next, count + 1);
        assert LoopVisited(c, step, max, s, count) == [s.current] + w;
        WalkCons(c, s.current, w);
      } else if st.Halted? && st.reason == Converged {
        assert Adjacent(c, s.current, st.last.current);
      }
    }
  }

  /** The best of `s` does not beat the final best. */
  lemma {:induction false} LoopKeepsBest(c: Constraints, step: StepFn, max: int, s: SearchState, count: nat)
    requires KeepsSized(c, step) && BestRule(c, step) && NoLimitHalt(c, step) && NoNeighborsRule(c, step) && Sized(c, s)
    requires Loop(c, step, max, s, count).Finished?
    ensures Sized(c, Loop(c, step, max, s, count).last)
    ensures !Better(ScoreOf(c, s.best), ScoreOf(c, Loop(c, step, max, s, count).last.best))
    decreases max + 1 - count
  {
    if count <= max {
      var st := step(s);
      if st.Moved? {
        var n := st.next;
        LoopKeepsBest(c, step, max, n, count + 1);
        NotBetterTrans(ScoreOf(c, s.best), ScoreOf(c, n.best), ScoreOf(c, Loop(c, step, max, n, count + 1).last.best));
      } else if st.Halted? && st.reason == Converged {
        assert !Better(ScoreOf(c, s.best), ScoreOf(c, After(st).best));
      } else if st.Halted? {
        assert st.reason == NoNeighbors && st.last == s;
      }
    }
  }

  /** The final best is the best of `s` or one of the rotations moved through. */
  lemma {:induction false} LoopBestVisited(c: Constraints, step: StepFn, max: int, s: SearchState, count: nat)
    requires KeepsSized(c, step) && BestRule(c, step) && NoLimitHalt(c, step) && NoNeighborsRule(c, step) && Sized(c, s)
    requires Loop(c, step, max, s, count).Finished?
    ensures var best := Loop(c, step, max, s, count).last.best;
      best == s.best || best in LoopVisited(c, step, max, s, count)
    decreases max + 1 - count
  {
    if count <= max {
      var st := step(s);
      if st.Moved? {
        LoopBestVisited(c, step, max, st.next, count + 1);
        var w := LoopVisited(c, step, max, st.next, count + 1);
        assert LoopVisited(c, step, max, s, count) == [s.current] + w;
        assert st.next.current == w[0];
      } else if st.Halted? && st.reason == Converged {
        assert LoopVisited(c, step, max, s, count) == [s.current, st.last.current];
        assert After(st).best == s.best || After(st).best == After(st).current;
      } else if st.Halted? {
        assert st.reason == NoNeighbors && st.last == s;
      }
    }
  }

  /**
   * No rotation moved through beats the final best, given that the current
   * rotation of `s` does not beat its best.
   */
  lemma {:induction false} LoopBestDominates(c: Constraints, step: StepFn, max: int, s: SearchState, count: nat)
    requires KeepsSized(c, step) && BestRule(c, step) && NoLimitHalt(c, step) && NoNeighborsRule(c, step) && Sized(c, s)
    requires !Better(ScoreOf(c, s.current), ScoreOf(c, s.best))
    requires Loop(c, step, max, s, count).Finished?
    ensures Sized(c, Loop(c, step, max, s, count).last)
    ensures forall k :: 0 <= k < |LoopVisited(c, step, max, s, count)| ==>
      |LoopVisited(c, step, max, s, count)[k]| > 0
      && !Better(ScoreOf(c, LoopVisited(c, step, max, s, count)[k]), ScoreOf(c, Loop(c, step, max, s, count).last.best))
    decreases max + 1 - count
  {
    LoopKeepsBest(c, step, max, s, count);
    var last := Loop(c, step, max, s, count).last;
    NotBetterTrans(ScoreOf(c, s.current), ScoreOf(c, s.best), ScoreOf(c, last.best));
    if count <= max {
      var st := step(s);
      if st.Moved? {
        LoopBestDominates(c, step, max, st.next, count + 1);
        assert LoopVisited(c, step, max, s, count) == [s.current] + LoopVisited(c, step, max, st.next, count + 1);
      } else if st.Halted? && st.reason == Converged {
        assert LoopVisited(c, step, max, s, count) == [s.current, st.last.current];
      }
    }
  }

  /** Shifting the first move of a walk onto the moves already made. */
  lemma ShiftMove(moves: seq<seq<Day>>, y: seq<Day>, v: seq<seq<Day>>)
    requires |v| >= 1
    ensures moves + ([y] + v)[1..] == (moves + [v[0]]) + v[1..]
    ensures |v| >= 2 ==> moves + ([y] + v)[1..|v|] == (moves + [v[0]]) + v[1..|v| - 1]
  {
    assert ([y] + v)[1..] == v;
    assert v == [v[0]] + v[1..];
    if |v| >= 2 {
      assert ([y] + v)[1..|v|] == v[..|v| - 1];
      assert v[..|v| - 1] == [v[0]] + v[1..|v| - 1];
    }
  }

  /**
   * A loop that stops without converging leaves in its tabu list the
   * window of the latest rotations it moved to, after those of `moves`.
   */
  lemma {:induction false} LoopTabu(c: Constraints, tabuSize: int, step: StepFn, max: int, s: SearchState, count: nat, moves: seq<seq<Day>>)
    requires KeepsSized(c, step) && TabuRule(c, tabuSize, step) && NoLimitHalt(c, step) && NoNeighborsRule(c, step)
    requires Sized(c, s) && IsWindow(moves, s.tabu, tabuSize)
    requires Loop(c, step, max, s, count).Finished? && Loop(c, step, max, s, count).reason != Converged
    ensures IsWindow(moves + LoopVisited(c, step, max, s, count)[1..], Loop(c, step, max, s, count).last.tabu, tabuSize)
    decreases max + 1 - count
  {
    var w := LoopVisited(c, step, max, s, count);
    if count <= max && step(s).Moved? {
      var n := step(s).next;
      TabuWindow(moves, s.tabu, n.current, tabuSize);
      LoopTabu(c, tabuSize, step, max, n, count + 1, moves + [n.current]);
      ShiftMove(moves, s.current, LoopVisited(c, step, max, n, count + 1));
    } else {
      assert w == [s.current];
      assert moves + w[1..] == moves;
      if count <= max {
        assert step(s).Halted? && step(s).reason == NoNeighbors && step(s).last == s;
      }
    }
  }

  /**
   * A loop that converges leaves in its tabu list the window of the
   * latest rotations it moved to, after those of `moves`, leaving out the
   * converging move, which is never recorded.
   */
  lemma {:induction false} LoopTabuConverged(c: Constraints, tabuSize: int, step: StepFn, max: int, s: SearchState, count: nat, moves: seq<seq<Day>>)
    requires KeepsSized(c, step) && TabuRule(c, tabuSize, step)
    requires Sized(c, s) && IsWindow(moves, s.tabu, tabuSize)
    requires Loop(c, step, max, s, count).Finished? && Loop(c, step, max, s, count).reason == Converged
    ensures |LoopVisited(c, step, max, s, count)| >= 2
    ensures var w := LoopVisited(c, step, max, s, count);
      IsWindow(moves + w[1..|w| - 1], Loop(c, step, max, s, count).last.tabu, tabuSize)
    decreases max + 1 - count
  {
    var w := LoopVisited(c, step, max, s, count);
    var st := step(s);
    if st.Moved? {
      var n := st.next;
      TabuWindow(moves, s.tabu, n.current, tabuSize);
      LoopTabuConverged(c, tabuSize, step, max, n, count + 1, moves + [n.current]);
      ShiftMove(moves, s.current, LoopVisited(c, step, max, n, count + 1));
    } else {
      assert w == [s.current, st.last.current];
      assert moves + w[1..|w| - 1] == moves;
    }
  }

  /**
   * The loop fails exactly when it iterates at all and the horizon is the
   * unscannable one-day horizon; a move needs two days, so later
   * iterations never fail.
   */
  lemma {:induction false} LoopFault(c: Constraints, step: StepFn, max: int, s: SearchState, count: nat)
    requires KeepsSized(c, step) && FaultRule(c, step) && Sized(c, s)
    ensures Loop(c, step, max, s, count).Failed? <==> count <= max && Unscannable(c, s.current)
    ensures Loop(c, step, max, s, count).Failed? ==> Loop(c, step, max, s, count).fault == UnboundIndex
    decreases max + 1 - count
  {
    if count <= max && step(s).Moved? {
      LoopFault(c, step, max, step(s).next, count + 1);
    }
  }

  // The search's own loop body obeys the rules.

  /**
   * The update rules of a move to `next`: the best is replaced, and the
   * stagnation counter reset, exactly on a strict improvement, otherwise
   * the counter grows by one; the search converges exactly when the new
   * best has no penalty and the counter reached limit_not_improved; a move
   * that does not converge records `next` in the tabu list.
   */
  lemma MoveToRules(c: Constraints, b: Bounds, s: SearchState, next: seq<Day>)
    requires Sized(c, s) && |next| == c.numDays
    ensures var improved := Better(ScoreOf(c, next), ScoreOf(c, s.best));
      var n := After(MoveTo(c, b, s, next));
      && n.current == next
      && n.best == (if improved then next else s.best)
      && n.notImproved == (if improved then 0 else s.notImproved + 1)
      && (MoveTo(c, b, s, next).Halted? <==> ScoreOf(c, n.best).penalty == 0 && n.notImproved >= b.limitNotImproved)
      && (MoveTo(c, b, s, next).Moved? ==> n.tabu == Enqueue(s.tabu, next, b.tabuSize))
      && (MoveTo(c, b, s, next).Halted? ==> n.tabu == s.tabu)
  {
  }

  /**
   * The stop rules of one iteration: the search converges only with a
   * best rotation without penalty and the counter at limit_not_improved,
   * and it stops for want of neighbours only when every neighbour is tabu,
   * keeping its state; the iteration limit is the loop's business.
   */
  lemma StepStops(c: Constraints, b: Bounds, s: SearchState)
    requires Sized(c, s)
    ensures Step(c, b, s).Halted? && Step(c, b, s).reason == Converged ==>
      ScoreOf(c, Step(c, b, s).last.best).penalty == 0 && Step(c, b, s).last.notImproved >= b.limitNotImproved
    ensures Step(c, b, s).Halted? && Step(c, b, s).reason == NoNeighbors ==>
      Step(c, b, s).last == s && NextRotation(c, s.current, s.tabu) == Ok(None)
    ensures Step(c, b, s).Halted? ==> Step(c, b, s).reason != IterationLimit
  {
    var r := NextRotation(c, s.current, s.tabu);
    if r.Ok? && r.value.Some? {
      MoveToRules(c, b, s, r.value.value);
    }
  }

  /** Every move of an iteration goes to a neighbour of the current rotation. */
  lemma StepAdjacent(c: Constraints, b: Bounds, s: SearchState)
    requires Sized(c, s)
    ensures Step(c, b, s).Moved? || (Step(c, b, s).Halted? && Step(c, b, s).reason == Converged) ==>
      Adjacent(c, s.current, After(Step(c, b, s)).current)
  {
  }

  /** A move replaces the best rotation only by a strictly better one. */
  lemma MoveToBest(c: Constraints, b: Bounds, s: SearchState, next: seq<Day>)
    requires Sized(c, s) && |next| == c.numDays
    ensures var n := After(MoveTo(c, b, s, next));
      && n.current == next
      && !Better(ScoreOf(c, next), ScoreOf(c, n.best))
      && !Better(ScoreOf(c, s.best), ScoreOf(c, n.best))
      && (n.best == s.best || n.best == next)
  {
  }

  /** One iteration replaces the best rotation only by a strictly better one. */
  lemma StepBest(c: Constraints, b: Bounds, s: SearchState)
    requires Sized(c, s)
    ensures var st := Step(c, b, s);
      st.Moved? || (st.Halted? && st.reason == Converged) ==>
      && !Better(ScoreOf(c, After(st).current), ScoreOf(c, After(st).best))
      && !Better(ScoreOf(c, s.best), ScoreOf(c, After(st).best))
      && (After(st).best == s.best || After(st).best == After(st).current)
  {
    var r := NextRotation(c, s.current, s.tabu);
    if r.Ok? && r.value.Some? {
      MoveToBest(c, b, s, r.value.value);
    }
  }

  /** One iteration fails exactly on the unscannable horizon, and moves only on two days or more. */
  lemma StepFault(c: Constraints, b: Bounds, s: SearchState)
    requires Sized(c, s)
    ensures Step(c, b, s).Faulted? <==> Unscannable(c, s.current)
    ensures Step(c, b, s).Faulted? ==> Step(c, b, s).fault == UnboundIndex
    ensures Step(c, b, s).Moved? ==> |s.current| >= 2
  {
    NeighborhoodFault(c, s.current);
  }

  /** One iteration of TabuSearch.search stops only by its stop rules. */
  lemma IterationStops(c: Constraints, b: Bounds)
    ensures var step := Iteration(c, b);
      NoLimitHalt(c, step) && ConvergeRule(c, b.limitNotImproved, step) && NoNeighborsRule(c, step)
  {
    var step := Iteration(c, b);
    forall s | Sized(c, s)
      ensures !(step(s).Halted? && step(s).reason == IterationLimit)
      ensures step(s).Halted? && step(s).reason == Converged ==>
        ScoreOf(c, step(s).last.best).penalty == 0 && step(s).last.notImproved >= b.limitNotImproved
      ensures step(s).Halted? && step(s).reason == NoNeighbors ==>
        step(s).last == s && NextRotation(c, s.current, s.tabu) == Ok(None)
    {
      assert step(s) == Step(c, b, s);
      StepStops(c, b, s);
    }
  }

  /** One iteration of TabuSearch.search moves to a neighbour. */
  lemma IterationAdjacent(c: Constraints, b: Bounds)
    ensures AdjacentRule(c, Iteration(c, b))
  {
    var step := Iteration(c, b);
    forall s | Sized(c, s) && (step(s).Moved? || (step(s).Halted? && step(s).reason == Converged))
      ensures Adjacent(c, s.current, After(step(s)).current)
    {
      assert step(s) == Step(c, b, s);
      StepAdjacent(c, b, s);
    }
  }

  /** One iteration of TabuSearch.search keeps the best rotation best. */
  lemma IterationBest(c: Constraints, b: Bounds)
    ensures BestRule(c, Iteration(c, b))
  {
    var step := Iteration(c, b);
    forall s | Sized(c, s) && (step(s).Moved? || (step(s).Halted? && step(s).reason == Converged))
      ensures !Better(ScoreOf(c, After(step(s)).current), ScoreOf(c, After(step(s)).best))
      ensures !Better(ScoreOf(c, s.best), ScoreOf(c, After(step(s)).best))
      ensures After(step(s)).best == s.best || After(step(s)).best == After(step(s)).current
    {
      assert step(s) == Step(c, b, s);
      StepBest(c, b, s);
    }
  }

  /** One iteration of TabuSearch.search fails exactly on the unscannable horizon. */
  lemma IterationFault(c: Constraints, b: Bounds)
    ensures FaultRule(c, Iteration(c, b))
  {
    var step := Iteration(c, b);
    forall s | Sized(c, s)
      ensures step(s).Faulted? <==> Unscannable(c, s.current)
      ensures step(s).Faulted? ==> step(s).fault == UnboundIndex
      ensures step(s).Moved? ==> |s.current| >= 2
    {
      assert step(s) == Step(c, b, s);
      StepFault(c, b, s);
    }
  }

  /** One iteration of TabuSearch.search records its move in the tabu list. */
  lemma IterationTabu(c: Constraints, b: Bounds)
    ensures TabuRule(c, b.tabuSize, Iteration(c, b))
  {
    var step := Iteration(c, b);
    forall s | Sized(c, s)
      ensures step(s).Moved? ==> step(s).next.tabu == Enqueue(s.tabu, step(s).next.current, b.tabuSize)
      ensures step(s).Halted? && step(s).reason == Converged ==> step(s).last.tabu == s.tabu
    {
      assert step(s) == Step(c, b, s);
      var r := NextRotation(c, s.current, s.tabu);
      if r.Ok? && r.value.Some? {
        MoveToRules(c, b, s, r.value.value);
      }
    }
  }

  /**
   * What a loop that finished from `initial` promises of its walk: the
   * initial rotation does not beat the result; the result is one of the
   * rotations the loop moved through, which form a walk of neighbourhood
   * moves from `initial` ending at the last current rotation; and none of
   * them beats it.
   */
  ghost predicate WalkPromised(c: Constraints, step: StepFn, b: Bounds, initial: seq<Day>, res: RunResult)
    requires KeepsSized(c, step) && 1 <= |initial| == c.numDays
  {
    var walk := LoopVisited(c, step, b.maxIterations, Start(initial), 0);
    && res.Finished?
    && Sized(c, res.last)
    && !Better(ScoreOf(c, initial), ScoreOf(c, res.last.best))
    && res.last.best in walk && IsWalk(c, walk) && walk[|walk| - 1] == res.last.current
    && (forall k :: 0 <= k < |walk| ==> |walk[k]| == c.numDays && !Better(ScoreOf(c, walk[k]), ScoreOf(c, res.last.best)))
  }

  /**
   * What a loop that finished from `initial` promises of its stop: it ran
   * at most max_iterations + 1 iterations, and each stop reason holds only
   * when its rule fired.
   */
  ghost predicate StopPromised(c: Constraints, step: StepFn, b: Bounds, initial: seq<Day>, res: RunResult)
    requires KeepsSized(c, step) && 1 <= |initial| == c.numDays
  {
    && res.Finished?
    && Sized(c, res.last)
    && res.iterations <= IterationBound(b.maxIterations)
    && (res.reason == Converged ==> ScoreOf(c, res.last.best).penalty == 0 && res.last.notImproved >= b.limitNotImproved)
    && (res.reason == IterationLimit ==> res.iterations == IterationBound(b.maxIterations))
    && (res.reason == NoNeighbors ==> NextRotation(c, res.last.current, res.last.tabu) == Ok(None))
  }

  /**
   * What a loop that finished from `initial` promises of its tabu list: it
   * holds the latest moves the loop recorded, which are all the rotations
   * moved to except a final one on which the search converged.
   */
  ghost predicate TabuPromised(c: Constraints, step: StepFn, b: Bounds, initial: seq<Day>, res: RunResult)
    requires KeepsSized(c, step) && 1 <= |initial| == c.numDays
  {
    var walk := LoopVisited(c, step, b.maxIterations, Start(initial), 0);
    && res.Finished?
    && (res.reason != Converged ==> IsWindow(walk[1..], res.last.tabu, b.tabuSize))
    && (res.reason == Converged ==> |walk| >= 2 && IsWindow(walk[1..|walk| - 1], res.last.tabu, b.tabuSize))
  }

  /** The walk promises of a loop obeying the rules. */
  lemma LoopWalkPromised(c: Constraints, step: StepFn, b: Bounds, initial: seq<Day>)
    requires KeepsSized(c, step) && 1 <= |initial| == c.numDays
    requires NoLimitHalt(c, step) && NoNeighborsRule(c, step) && AdjacentRule(c, step) && BestRule(c, step)
    requires Loop(c, step, b.maxIterations, Start(initial), 0).Finished?
    ensures WalkPromised(c, step, b, initial, Loop(c, step, b.maxIterations, Start(initial), 0))
  {
    var s := Start(initial);
    LoopWalk(c, step, b.maxIterations, s, 0);
    LoopBestDominates(c, step, b.maxIterations, s, 0);
    LoopBestVisited(c, step, b.maxIterations, s, 0);
    LoopWalkEnd(c, step, b.maxIterations, s, 0);
  }

  /** The stop promises of a loop obeying the rules. */
  lemma LoopStopPromised(c: Constraints, step: StepFn, b: Bounds, initial: seq<Day>)
    requires KeepsSized(c, step) && 1 <= |initial| == c.numDays
    requires NoLimitHalt(c, step) && ConvergeRule(c, b.limitNotImproved, step) && NoNeighborsRule(c, step)
    requires Loop(c, step, b.maxIterations, Start(initial), 0).Finished?
    ensures StopPromised(c, step, b, initial, Loop(c, step, b.maxIterations, Start(initial), 0))
  {
    var s := Start(initial);
    var max := b.maxIterations;
    var res := Loop(c, step, max, s, 0);
    LoopIterations(c, step, max, s, 0);
    if res.reason == Converged {
      LoopConverged(c, b.limitNotImproved, step, max, s, 0);
    } else if res.reason == IterationLimit {
      LoopLimit(c, step, max, s, 0);
    } else {
      LoopNoNeighbors(c, step, max, s, 0);
    }
  }

  /** The tabu list of a loop that did not converge holds its latest moves. */
  lemma LoopTabuOpen(c: Constraints, step: StepFn, b: Bounds, initial: seq<Day>)
    requires KeepsSized(c, step) && 1 <= |initial| == c.numDays
    requires NoLimitHalt(c, step) && NoNeighborsRule(c, step) && TabuRule(c, b.tabuSize, step)
    requires Loop(c, step, b.maxIterations, Start(initial), 0).Finished?
    requires Loop(c, step, b.maxIterations, Start(initial), 0).reason != Converged
    ensures var walk := LoopVisited(c, step, b.maxIterations, Start(initial), 0);
      IsWindow(walk[1..], Loop(c, step, b.maxIterations, Start(initial), 0).last.tabu, b.tabuSize)
  {
    var s := Start(initial);
    var walk := LoopVisited(c, step, b.maxIterations, s, 0);
    var none: seq<seq<Day>> := [];
    assert IsWindow(none, s.tabu, b.tabuSize);
    LoopTabu(c, b.tabuSize, step, b.maxIterations, s, 0, none);
    var recorded := walk[1..];
    assert none + recorded == recorded;
  }

  /** The tabu list of a loop that converged holds its latest moves but the last. */
  lemma LoopTabuClosed(c: Constraints, step: StepFn, b: Bounds, initial: seq<Day>)
    requires KeepsSized(c, step) && 1 <= |initial| == c.numDays
    requires TabuRule(c, b.tabuSize, step)
    requires Loop(c, step, b.maxIterations, Start(initial), 0).Finished?
    requires Loop(c, step, b.maxIterations, Start(initial), 0).reason == Converged
    ensures var walk := LoopVisited(c, step, b.maxIterations, Start(initial), 0);
      |walk| >= 2 && IsWindow(walk[1..|walk| - 1], Loop(c, step, b.maxIterations, Start(initial), 0).last.tabu, b.tabuSize)
  {
    var s := Start(initial);
    var walk := LoopVisited(c, step, b.maxIterations, s, 0);
    var none: seq<seq<Day>> := [];
    assert IsWindow(none, s.tabu, b.tabuSize);
    LoopTabuConverged(c, b.tabuSize, step, b.maxIterations, s, 0, none);
    var recorded := walk[1..|walk| - 1];
    assert none + recorded == recorded;
  }

  /** The tabu promises of a loop obeying the rules. */
  lemma LoopTabuPromised(c: Constraints, step: StepFn, b: Bounds, initial: seq<Day>)
    requires KeepsSized(c, step) && 1 <= |initial| == c.numDays
    requires NoLimitHalt(c, step) && NoNeighborsRule(c, step) && TabuRule(c, b.tabuSize, step)
    requires Loop(c, step, b.maxIterations, Start(initial), 0).Finished?
    ensures TabuPromised(c, step, b, initial, Loop(c, step, b.maxIterations, Start(initial), 0))
  {
    if Loop(c, step, b.maxIterations, Start(initial), 0).reason == Converged {
      LoopTabuClosed(c, step, b, initial);
    } else {
      LoopTabuOpen(c, step, b, initial);
    }
  }

  /** What a finished search of TabuSearch.search from `initial` promises. */
  ghost predicate Promises(c: Constraints, b: Bounds, initial: seq<Day>, res: RunResult)
    requires 1 <= |initial| == c.numDays
  {
    && WalkPromised(c, Iteration(c, b), b, initial, res)
    && StopPromised(c, Iteration(c, b), b, initial, res)
    && TabuPromised(c, Iteration(c, b), b, initial, res)
  }

  /** A search from an initial rotation either fails on the unscannable horizon or keeps its promises. */
  lemma SearchFromStart(c: Constraints, b: Bounds, initial: seq<Day>)
    requires 1 <= |initial| == c.numDays
    ensures Run(c, b, Start(initial), 0).Failed? <==> IterationBound(b.maxIterations) > 0 && Unscannable(c, initial)
    ensures Run(c, b, Start(initial), 0).Failed? ==> Run(c, b, Start(initial), 0).fault == UnboundIndex
    ensures Run(c, b, Start(initial), 0).Finished? ==> Promises(c, b, initial, Run(c, b, Start(initial), 0))
  {
    var s := Start(initial);
    var step := Iteration(c, b);
    IterationStops(c, b);
    IterationAdjacent(c, b);
    IterationBest(c, b);
    IterationFault(c, b);
    IterationTabu(c, b);
    LoopFault(c, step, b.maxIterations, s, 0);
    if Run(c, b, s, 0).Finished? {
      LoopWalkPromised(c, step, b, initial);
      LoopStopPromised(c, step, b, initial);
      LoopTabuPromised(c, step, b, initial);
    }
  }
}
