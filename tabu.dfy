/**
 * The tabu search on rotations as values (model.py: TabuSearch.search). One
 * pass of the loop body is the function Step of the search state, and the
 * whole loop is Run, which iterates Step. The TabuSearch class is proved to
 * compute Run; the lemmas here say what Run promises.
 */
module Tabu {
  import opened Wrappers
  import opened Days
  import opened BlockEncoding
  import opened Scoring
  import opened Moves

  /** Why a search that did not fail stopped. */
  datatype Stop = NoNeighbors | Converged | IterationLimit

  /** The three tuning values of a search. */
  datatype Bounds = Bounds(tabuSize: int, maxIterations: int, limitNotImproved: int)

  /**
   * The variables of the search loop: the current and the best rotation,
   * the tabu list and the stagnation counter.
   */
  datatype SearchState = SearchState(current: seq<Day>, best: seq<Day>, tabu: seq<seq<Day>>, notImproved: int)

  /** What one pass of the loop body does. */
  datatype StepResult = Moved(next: SearchState) | Halted(reason: Stop, last: SearchState) | Faulted(fault: Fault)

  /** How the loop ends: with the final state and the iteration count, or with a fault. */
  datatype RunResult = Finished(reason: Stop, last: SearchState, iterations: nat) | Failed(fault: Fault)

  /** The rotations of a state span the horizon. */
  predicate Sized(c: Constraints, s: SearchState)
  {
    1 <= |s.current| == c.numDays && |s.best| == c.numDays
  }

  /** The state before the first iteration. */
  function Start(initial: seq<Day>): SearchState
  {
    SearchState(initial, initial, [], 0)
  }

  /** How many iterations at most a search with this bound runs. */
  function IterationBound(maxIterations: int): (n: nat)
    ensures maxIterations >= 0 ==> n == maxIterations + 1
    ensures maxIterations < 0 ==> n == 0
  {
    if maxIterations < 0 then 0 else maxIterations + 1
  }

  /** The tabu list's capacity: a negative size behaves as zero. */
  function Capacity(tabuSize: int): (n: nat)
    ensures n >= tabuSize && (tabuSize >= 0 ==> n == tabuSize)
  {
    if tabuSize < 0 then 0 else tabuSize
  }

  function Min(a: int, b: int): int
  {
    if a < b then a else b
  }

  /** The tabu list after recording `x`: the oldest entry goes once the list is over size. */
  function Enqueue<T>(tabu: seq<T>, x: T, tabuSize: int): (r: seq<T>)
    ensures |tabu| <= Capacity(tabuSize) ==> |r| <= Capacity(tabuSize)
    ensures forall k :: 0 <= k < |r| ==> r[k] in tabu + [x]
  {
    if |tabu + [x]| > tabuSize then (tabu + [x])[1..] else tabu + [x]
  }

  /**
   * `tabu` holds the latest of `moves`, oldest first, as many as the tabu
   * size allows.
   */
  ghost predicate IsWindow<T>(moves: seq<T>, tabu: seq<T>, tabuSize: int)
  {
    |tabu| == Min(|moves|, Capacity(tabuSize)) && tabu == moves[|moves| - |tabu|..]
  }

  /**
   * The tabu list is a FIFO window: when it holds the latest moves, it
   * still does after one more move is enqueued.
   */
  lemma TabuWindow<T>(moves: seq<T>, tabu: seq<T>, x: T, tabuSize: int)
    requires IsWindow(moves, tabu, tabuSize)
    ensures IsWindow(moves + [x], Enqueue(tabu, x, tabuSize), tabuSize)
  {
    var m := moves + [x];
    assert moves[|moves| - |tabu|..] + [x] == m[|m| - |tabu| - 1..];
  }

  /**
   * __eq__ between two schedules under the same constraints: the same
   * blocks (the parameters it also compares agree).
   */
  predicate SameShape(a: seq<Day>, b: seq<Day>)
  {
    Blocks(Types(a)) == Blocks(Types(b))
  }

  /** `d in tabu_list`: some tabu entry has the blocks of `d`. */
  predicate IsTabu(d: seq<Day>, tabu: seq<seq<Day>>)
  {
    exists j :: 0 <= j < |tabu| && SameShape(tabu[j], d)
  }

  /** The neighbours that are not tabu, in their order. */
  function NonTabu(neighbors: seq<seq<Day>>, tabu: seq<seq<Day>>): (r: seq<seq<Day>>)
    ensures |r| <= |neighbors|
    ensures forall d :: d in r <==> d in neighbors && !IsTabu(d, tabu)
  {
    if neighbors == [] then []
    else
      assert forall d :: d in neighbors <==> d == neighbors[0] || d in neighbors[1..];
      (if IsTabu(neighbors[0], tabu) then [] else [neighbors[0]]) + NonTabu(neighbors[1..], tabu)
  }

  /** The scores of the rotations `ds`, in order. */
  function RotationScores(c: Constraints, ds: seq<seq<Day>>): (r: seq<ScheduleScore>)
    requires forall k :: 0 <= k < |ds| ==> |ds[k]| > 0
    ensures |r| == |ds| && forall k :: 0 <= k < |ds| ==> r[k] == ScoreOf(c, ds[k])
  {
    seq(|ds|, k requires 0 <= k < |ds| => ScoreOf(c, ds[k]))
  }

  /**
   * Neighbours span the horizon of the rotation they come from, and a
   * rotation with a neighbour has at least two days.
   */
  lemma NeighborLengths(c: Constraints, days: seq<Day>)
    requires |days| == c.numDays && Neighborhood(c, days).Ok?
    ensures forall d :: d in Neighborhood(c, days).value ==> |d| == |days|
    ensures Neighborhood(c, days).value != [] ==> |days| >= 2
  {
    var ns := Neighborhood(c, days).value;
    NeighborhoodFromTriggers(c, days, |days|, ns);
    forall d | d in ns
      ensures |d| == |days| >= 2
    {
      var i: nat, j: int :| i < |days| && 2 <= |days| && 0 <= j < |days| && NewDayOff(c, days, i, j) == Some(d);
      NewDayOffMeaning(c, days, i, j);
    }
    if ns != [] {
      assert ns[0] in ns;
    }
  }

  /** The non-tabu neighbours of `days`, in the order find_neighborhood lists them. */
  function Candidates(c: Constraints, days: seq<Day>, tabu: seq<seq<Day>>): (r: seq<seq<Day>>)
    requires |days| == c.numDays && Neighborhood(c, days).Ok?
    ensures forall d :: d in r <==> d in Neighborhood(c, days).value && !IsTabu(d, tabu)
    ensures forall k :: 0 <= k < |r| ==> |r[k]| == |days| >= 2
  {
    NeighborLengths(c, days);
    var r := NonTabu(Neighborhood(c, days).value, tabu);
    assert forall k :: 0 <= k < |r| ==> r[k] in r;
    r
  }

  /**
   * The move of one iteration: the first best of the candidates by
   * (penalty, total); None when every neighbour is tabu.
   */
  function NextRotation(c: Constraints, days: seq<Day>, tabu: seq<seq<Day>>): (r: Result<Option<seq<Day>>>)
    requires |days| == c.numDays
    ensures r.Err? <==> Neighborhood(c, days).Err?
    ensures r.Ok? && r.value.Some? ==>
      && |r.value.value| == |days| >= 2
      && r.value.value in Neighborhood(c, days).value
      && !IsTabu(r.value.value, tabu)
  {
    if Neighborhood(c, days).Err? then Err(Neighborhood(c, days).fault)
    else
      var candidates := Candidates(c, days, tabu);
      if candidates == [] then Ok(None)
      else
        var k := FirstBest(RotationScores(c, candidates));
        assert candidates[k] in candidates;
        Ok(Some(candidates[k]))
  }

  /**
   * The move is the first best of the non-tabu neighbours: no candidate
   * beats it and every candidate listed before it is strictly worse; there
   * is no move exactly when every neighbour is tabu.
   */
  lemma NextRotationMeaning(c: Constraints, days: seq<Day>, tabu: seq<seq<Day>>)
    requires |days| == c.numDays && Neighborhood(c, days).Ok?
    ensures NextRotation(c, days, tabu).Ok?
    ensures NextRotation(c, days, tabu).value.None? <==> forall d :: d in Neighborhood(c, days).value ==> IsTabu(d, tabu)
    ensures var candidates := Candidates(c, days, tabu);
      NextRotation(c, days, tabu).value.Some? ==>
        exists k :: 0 <= k < |candidates| && candidates[k] == NextRotation(c, days, tabu).value.value
          && IsFirstBest(RotationScores(c, candidates), k)
  {
    var candidates := Candidates(c, days, tabu);
    if candidates != [] {
      assert candidates[0] in candidates;
    } else {
      forall d | d in Neighborhood(c, days).value
        ensures IsTabu(d, tabu)
      {
        assert d !in candidates;
      }
    }
  }

  /**
   * The move to `next`: it becomes the best on a strict improvement in
   * (penalty, total), which resets the stagnation counter, otherwise the
   * counter grows; stop once the best has no penalty and the counter
   * reached limit_not_improved; otherwise record the move in the tabu list.
   */
  function MoveTo(c: Constraints, b: Bounds, s: SearchState, next: seq<Day>): (r: StepResult)
    requires Sized(c, s) && |next| == c.numDays
    ensures r.Moved? || (r.Halted? && r.reason == Converged)
  {
    var improved := Better(ScoreOf(c, next), ScoreOf(c, s.best));
    var best := if improved then next else s.best;
    var counter := (if improved then -1 else s.notImproved) + 1;
    if ScoreOf(c, best).penalty == 0 && counter >= b.limitNotImproved then
      Halted(Converged, SearchState(next, best, s.tabu, counter))
    else
      Moved(SearchState(next, best, Enqueue(s.tabu, next, b.tabuSize), counter))
  }

  /**
   * One pass of the loop body of search: move to the best non-tabu
   * neighbour; with every neighbour tabu the loop stops.
   */
  function Step(c: Constraints, b: Bounds, s: SearchState): (r: StepResult)
    requires Sized(c, s)
    ensures r.Moved? ==> Sized(c, r.next) && |s.current| >= 2
    ensures r.Halted? ==> Sized(c, r.last)
  {
    match NextRotation(c, s.current, s.tabu)
    case Err(f) => Faulted(f)
    case Ok(None) => Halted(NoNeighbors, s)
    case Ok(Some(next)) => MoveTo(c, b, s, next)
  }

  /** The loop body as a value: what one iteration does to a state. */
  type StepFn = SearchState --> StepResult

  /** A loop body defined on every state spanning the horizon, and keeping the states it leaves in spanning it. */
  ghost predicate KeepsSized(c: Constraints, step: StepFn)
  {
    forall s :: Sized(c, s) ==>
      && step.requires(s)
      && (step(s).Moved? ==> Sized(c, step(s).next))
      && (step(s).Halted? ==> Sized(c, step(s).last))
  }

  /** The loop body of the search, Step, as a value. */
  function Iteration(c: Constraints, b: Bounds): (step: StepFn)
    ensures KeepsSized(c, step)
  {
    (s: SearchState) requires Sized(c, s) => Step(c, b, s)
  }

  /**
   * The loop `while count <= max_iterations` around the body `step`, from
   * state `s` after `count` iterations.
   */
  function Loop(c: Constraints, step: StepFn, maxIterations: int, s: SearchState, count: nat): RunResult
    requires KeepsSized(c, step) && Sized(c, s)
    decreases maxIterations + 1 - count
  {
    if count > maxIterations then Finished(IterationLimit, s, count)
    else
      match step(s)
      case Faulted(f) => Failed(f)
      case Halted(reason, last) => Finished(reason, last, count)
      case Moved(next) => Loop(c, step, maxIterations, next, count + 1)
  }

  /**
   * The rotations that loop moves through from state `s`: its current one,
   * then each one it moves to.
   */
  function LoopVisited(c: Constraints, step: StepFn, maxIterations: int, s: SearchState, count: nat): (w: seq<seq<Day>>)
    requires KeepsSized(c, step) && Sized(c, s)
    ensures |w| >= 1 && w[0] == s.current
    decreases maxIterations + 1 - count
  {
    if count > maxIterations then [s.current]
    else
      match step(s)
      case Faulted(_) => [s.current]
      case Halted(reason, last) => if reason == Converged then [s.current, last.current] else [s.current]
      case Moved(next) => [s.current] + LoopVisited(c, step, maxIterations, next, count + 1)
  }

  /** The search loop of TabuSearch.search, from state `s` after `count` iterations. */
  function Run(c: Constraints, b: Bounds, s: SearchState, count: nat): RunResult
    requires Sized(c, s)
  {
    Loop(c, Iteration(c, b), b.maxIterations, s, count)
  }

  /** The rotations the search moves through from state `s`. */
  function Visited(c: Constraints, b: Bounds, s: SearchState, count: nat): seq<seq<Day>>
    requires Sized(c, s)
  {
    LoopVisited(c, Iteration(c, b), b.maxIterations, s, count)
  }

  /** Rotation `b` is a neighbour of rotation `a` under constraints `c`. */
  ghost predicate Adjacent(c: Constraints, a: seq<Day>, b: seq<Day>)
  {
    |a| == c.numDays && Neighborhood(c, a).Ok? && b in Neighborhood(c, a).value
  }

  /** A sequence of rotations, each one a neighbour of the one before it. */
  ghost predicate IsWalk(c: Constraints, w: seq<seq<Day>>)
  {
    |w| >= 1 && forall k :: 0 <= k < |w| - 1 ==> Adjacent(c, w[k], w[k + 1])
  }

  lemma WalkCons(c: Constraints, x: seq<Day>, w: seq<seq<Day>>)
    requires IsWalk(c, w) && Adjacent(c, x, w[0])
    ensures IsWalk(c, [x] + w)
  {
    var v := [x] + w;
    forall k | 0 <= k < |v| - 1
      ensures Adjacent(c, v[k], v[k + 1])
    {
      if k > 0 {
        assert v[k] == w[k - 1] && v[k + 1] == w[k];
      }
    }
  }

  /**
   * The one-day horizon whose day triggers a move: find_neighborhood fails
   * there, because the scan for the next day of another type never runs.
   */
  ghost predicate Unscannable(c: Constraints, days: seq<Day>)
  {
    |days| == 1 && (ShortOffRun(c, Types(days), 0) || LongWorkingRun(c, Types(days), 0))
  }
}
