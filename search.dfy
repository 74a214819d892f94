/**
 * The local search over schedule objects: picking the best of a list of
 * schedules (utils.py: find_best_schedule), the tabu search loop (model.py:
 * TabuSearch.search) and the entry point that validates, builds and searches
 * (model.py: perform_tabu_search). Each method is proved to compute the
 * search on rotations of module Tabu, whose promises module TabuRuns proves.
 */
module Search {
  import opened Wrappers
  import opened Days
  import opened Scoring
  import opened Moves
  import opened Model
  import opened Validation
  import opened BlockEncoding
  import opened Tabu
  import opened TabuRuns

  /** The scores of `ss`, in order. */
  function Scores(ss: seq<Schedule>): (r: seq<ScheduleScore>)
    reads ss
    ensures |r| == |ss| && forall k :: 0 <= k < |ss| ==> r[k] == ss[k].score
  {
    if ss == [] then [] else [ss[0].score] + Scores(ss[1..])
  }

  /** The rotations of `ss`, in order. */
  function DaysOf(ss: seq<Schedule>): (r: seq<seq<Day>>)
    reads ss
    ensures |r| == |ss| && forall k :: 0 <= k < |ss| ==> r[k] == ss[k].days
  {
    if ss == [] then [] else [ss[0].days] + DaysOf(ss[1..])
  }

  /**
   * find_best_schedule: the schedule at the first position no other beats
   * on (penalty, total), so an equal one later in the list never replaces it.
   */
  method FindBestSchedule(schedules: seq<Schedule>) returns (best: Schedule)
    requires |schedules| > 0
    ensures best == schedules[FirstBest(Scores(schedules))]
  {
    best := schedules[0];
    ghost var k := 0;
    ghost var scores := Scores(schedules);
    for i := 0 to |schedules|
      invariant k < |schedules| && best == schedules[k]
      invariant i <= 1 ==> k == 0
      invariant 1 <= i ==> k < i && IsFirstBest(scores[..i], k) && FirstBestFrom(scores, i, k) == FirstBest(scores)
    {
      var schedule := schedules[i];
      if i == 0 {
        assert scores[..1] == [scores[0]];
      } else {
        FirstBestStep(scores, i, k);
      }
      if Better(schedule.score, best.score) {
        best := schedule;
        k := i;
      }
    }
  }

  /** One step of the scan: the choice after position `i` leads to the same first best. */
  lemma FirstBestStep(scores: seq<ScheduleScore>, i: nat, k: nat)
    requires k < i < |scores| && IsFirstBest(scores[..i], k)
    ensures var k' := if Better(scores[i], scores[k]) then i else k;
      IsFirstBest(scores[..i + 1], k') && FirstBestFrom(scores, i + 1, k') == FirstBestFrom(scores, i, k)
  {
    FirstBestExtend(scores[..i], k, scores[i]);
    assert scores[..i] + [scores[i]] == scores[..i + 1];
  }

  /** Python's `in` on the tabu list: some entry compares equal by __eq__. */
  predicate InTabu(x: Schedule, tabu: seq<Schedule>)
    reads x, tabu
  {
    exists j :: 0 <= j < |tabu| && tabu[j].Equals(x)
  }

  /** The schedules in `ss` are valid under constraints `c`. */
  ghost predicate AllValid(ss: seq<Schedule>, c: Constraints)
    reads ss
  {
    forall k {:trigger ss[k].Valid()} {:trigger ss[k].Params()} :: 0 <= k < |ss| ==> ss[k].Valid() && ss[k].Params() == c
  }

  /**
   * Among valid schedules under the same constraints, `in` on the tabu list
   * is the same-blocks test on rotations.
   */
  lemma InTabuMeansTabu(x: Schedule, tabu: seq<Schedule>, c: Constraints)
    requires x.Valid() && x.Params() == c && AllValid(tabu, c)
    ensures InTabu(x, tabu) <==> IsTabu(x.days, DaysOf(tabu))
  {
    if IsTabu(x.days, DaysOf(tabu)) {
      var j :| 0 <= j < |tabu| && SameShape(DaysOf(tabu)[j], x.days);
      assert tabu[j].Valid() && tabu[j].Params() == c;
      assert tabu[j].Equals(x);
    }
    if InTabu(x, tabu) {
      var j :| 0 <= j < |tabu| && tabu[j].Equals(x);
      assert tabu[j].Valid() && tabu[j].Params() == c;
      assert SameShape(DaysOf(tabu)[j], x.days);
    }
  }

  /** The neighbours that are not in the tabu list, in their order. */
  function NotInTabu(neighbors: seq<Schedule>, tabu: seq<Schedule>): (r: seq<Schedule>)
    reads neighbors, tabu
    ensures |r| <= |neighbors|
    ensures forall k :: 0 <= k < |r| ==> r[k] in neighbors && !InTabu(r[k], tabu)
    ensures forall k :: 0 <= k < |neighbors| && !InTabu(neighbors[k], tabu) ==> neighbors[k] in r
  {
    if neighbors == [] then []
    else
      var rest := NotInTabu(neighbors[1..], tabu);
      assert forall k :: 1 <= k < |neighbors| ==> neighbors[k] == neighbors[1..][k - 1];
      if InTabu(neighbors[0], tabu) then rest else [neighbors[0]] + rest
  }

  /** The tabu filter on schedules realizes the tabu filter on their rotations. */
  lemma {:induction false} NotInTabuRealizes(all: seq<Schedule>, spec: seq<seq<Day>>, c: Constraints, tabu: seq<Schedule>)
    requires Realizes(all, spec, c) && AllValid(tabu, c)
    ensures Realizes(NotInTabu(all, tabu), NonTabu(spec, DaysOf(tabu)), c)
  {
    if all != [] {
      assert Realizes(all[1..], spec[1..], c);
      NotInTabuRealizes(all[1..], spec[1..], c, tabu);
      InTabuMeansTabu(all[0], tabu, c);
      if !InTabu(all[0], tabu) {
        assert Realizes([all[0]], [spec[0]], c);
        RealizesAppend([all[0]], [spec[0]], NotInTabu(all[1..], tabu), NonTabu(spec[1..], DaysOf(tabu)), c);
      }
    }
  }

  /** Valid schedules carry the scores of their rotations. */
  lemma ScoresRealize(ss: seq<Schedule>, spec: seq<seq<Day>>, c: Constraints)
    requires Realizes(ss, spec, c)
    ensures forall k :: 0 <= k < |spec| ==> |spec[k]| > 0
    ensures Scores(ss) == RotationScores(c, spec)
  {
    forall k | 0 <= k < |spec|
      ensures |spec[k]| > 0 && Scores(ss)[k] == ScoreOf(c, spec[k])
    {
      assert ss[k].Valid() && ss[k].Params() == c;
    }
  }

  /**
   * The non-tabu neighbour schedules realize the candidates of NextRotation,
   * and its move is the rotation of the schedule find_best_schedule picks
   * among them.
   */
  lemma NextRotationOf(c: Constraints, days: seq<Day>, tabu: seq<Schedule>, found: seq<Schedule>)
    requires |days| == c.numDays && Neighborhood(c, days).Ok? && AllValid(tabu, c)
    requires Realizes(found, Neighborhood(c, days).value, c)
    ensures Realizes(NotInTabu(found, tabu), Candidates(c, days, DaysOf(tabu)), c)
    ensures NotInTabu(found, tabu) == [] ==> NextRotation(c, days, DaysOf(tabu)) == Ok(None)
    ensures var neighbors := NotInTabu(found, tabu);
      neighbors != [] ==> NextRotation(c, days, DaysOf(tabu)) == Ok(Some(neighbors[FirstBest(Scores(neighbors))].days))
  {
    var candidates := Candidates(c, days, DaysOf(tabu));
    NotInTabuRealizes(found, Neighborhood(c, days).value, c, tabu);
    assert candidates == NonTabu(Neighborhood(c, days).value, DaysOf(tabu));
    ScoresRealize(NotInTabu(found, tabu), candidates, c);
  }

  /** Where the neighbourhood fails, so does NextRotation, with the same fault. */
  lemma NextRotationFault(c: Constraints, days: seq<Day>, tabu: seq<seq<Day>>)
    requires |days| == c.numDays && Neighborhood(c, days).Err?
    ensures NextRotation(c, days, tabu) == Err(Neighborhood(c, days).fault)
  {
  }

  /**
   * The move NextRotation makes, read off the non-tabu neighbour schedules:
   * none when none is left, else the rotation of their first best, a valid
   * schedule found among the neighbours.
   */
  lemma ChosenMove(c: Constraints, days: seq<Day>, tabu: seq<Schedule>, found: seq<Schedule>)
    requires |days| == c.numDays && Neighborhood(c, days).Ok? && AllValid(tabu, c)
    requires Realizes(found, Neighborhood(c, days).value, c)
    ensures var candidates := NotInTabu(found, tabu);
      && (candidates == [] ==> NextRotation(c, days, DaysOf(tabu)) == Ok(None))
      && (candidates != [] ==>
            var pick := candidates[FirstBest(Scores(candidates))];
            && NextRotation(c, days, DaysOf(tabu)) == Ok(Some(pick.days))
            && pick.Valid() && pick.Params() == c && pick in found)
  {
    var candidates := NotInTabu(found, tabu);
    NextRotationOf(c, days, tabu, found);
    if candidates != [] {
      var k := FirstBest(Scores(candidates));
      assert candidates[k].Valid() && candidates[k].Params() == c;
    }
  }

  /**
   * The move once the neighbourhood is known: the tabu entries filtered
   * out, and the first best of what is left, None when nothing is left.
   */
  method ChooseMove(neighbors: seq<Schedule>, tabu: seq<Schedule>, ghost c: Constraints, ghost days: seq<Day>, ghost tabuDays: seq<seq<Day>>)
    returns (r: Option<Schedule>)
    requires |days| == c.numDays && Neighborhood(c, days).Ok?
    requires Realizes(neighbors, Neighborhood(c, days).value, c) && AllValid(tabu, c) && tabuDays == DaysOf(tabu)
    ensures r.None? ==> NextRotation(c, days, tabuDays) == Ok(None)
    ensures r.Some? ==> NextRotation(c, days, tabuDays) == Ok(Some(r.value.days)) && r.value.Valid() && r.value.Params() == c
    ensures r.Some? ==> r.value in neighbors
  {
    var candidates := NotInTabu(neighbors, tabu);
    ChosenMove(c, days, tabu, neighbors);
    if |candidates| == 0 {
      return None;
    }
    var best := FindBestSchedule(candidates);
    return Some(best);
  }

  /**
   * One move of the search: the neighbourhood of `current`, the tabu
   * entries filtered out, and the first best of what is left (None when
   * nothing is left); the move on rotations is NextRotation.
   */
  method NextMove(current: Schedule, tabu: seq<Schedule>, ghost c: Constraints) returns (r: Result<Option<Schedule>>)
    requires current.Valid() && current.Params() == c && AllValid(tabu, c)
    ensures var move := old(NextRotation(c, current.days, DaysOf(tabu)));
      && (r.Err? ==> move == Err(r.fault))
      && (r.Ok? && r.value.None? ==> move == Ok(None))
      && (r.Ok? && r.value.Some? ==> move == Ok(Some(r.value.value.days)))
    ensures r.Ok? && r.value.Some? ==> r.value.value.Valid() && r.value.value.Params() == c && fresh(r.value.value)
  {
    ghost var days := current.days;
    ghost var tabuDays := DaysOf(tabu);
    var found := current.FindNeighborhood();
    if found.Err? {
      NextRotationFault(c, days, tabuDays);
      return Err(found.fault);
    }
    assert DaysOf(tabu) == tabuDays;
    var next := ChooseMove(found.value, tabu, c, days, tabuDays);
    return Ok(next);
  }

  /** The loop variables of search, seen as a state of the search on rotations. */
  ghost function State(current: Schedule, best: Schedule, tabu: seq<Schedule>, notImproved: int): SearchState
    reads current, best, tabu
  {
    SearchState(current.days, best.days, DaysOf(tabu), notImproved)
  }

  /** Recording a schedule in the tabu list records its rotation. */
  lemma DaysOfEnqueue(tabu: seq<Schedule>, x: Schedule, tabuSize: int)
    ensures DaysOf(Enqueue(tabu, x, tabuSize)) == Enqueue(DaysOf(tabu), x.days, tabuSize)
  {
    var all := tabu + [x];
    assert DaysOf(all) == DaysOf(tabu) + [x.days];
    if |all| > tabuSize {
      assert DaysOf(all[1..]) == DaysOf(all)[1..];
    }
  }

  /** Recording a valid schedule keeps every tabu entry valid. */
  lemma AllValidEnqueue(tabu: seq<Schedule>, x: Schedule, tabuSize: int, c: Constraints)
    requires AllValid(tabu, c) && x.Valid() && x.Params() == c
    ensures AllValid(Enqueue(tabu, x, tabuSize), c)
  {
    assert AllValid(tabu + [x], c);
  }

  /**
   * `step` is the loop body Step: it keeps states spanning the horizon and
   * agrees with Step on each of them. The methods below are proved against
   * such a `step`, which keeps the body of Step out of their proofs.
   */
  ghost predicate IsStep(c: Constraints, b: Bounds, step: StepFn)
  {
    && KeepsSized(c, step)
    && forall s {:trigger Step(c, b, s)} :: Sized(c, s) ==> step(s) == Step(c, b, s)
  }

  /** Iteration, the loop body of Run, is Step. */
  lemma IterationIsStep(c: Constraints, b: Bounds)
    ensures IsStep(c, b, Iteration(c, b))
  {
    forall s | Sized(c, s)
      ensures Iteration(c, b)(s) == Step(c, b, s)
    {
    }
  }

  /** The loop body after the move NextRotation picks, by its three outcomes. */
  lemma StepOfMove(c: Constraints, b: Bounds, step: StepFn, s: SearchState)
    requires IsStep(c, b, step) && Sized(c, s)
    ensures var move := NextRotation(c, s.current, s.tabu);
      && (move.Err? ==> step(s) == Faulted(move.fault))
      && (move == Ok(None) ==> step(s) == Halted(NoNeighbors, s))
      && (move.Ok? && move.value.Some? ==> step(s) == MoveTo(c, b, s, move.value.value))
  {
    assert step(s) == Step(c, b, s);
  }

  /** What one pass of the loop body of search decided. */
  datatype Turn = Continue | Halt(reason: Stop) | Raise(fault: Fault)

  /** The tabu search driver with its three bounds. */
  class TabuSearch {
    const tabuSize: int
    const maxIterations: int
    const limitNotImproved: int

    constructor (tabuListSize: int, maxIterations: int, limitNotImproved: int)
      ensures tabuSize == tabuListSize && this.maxIterations == maxIterations
      ensures this.limitNotImproved == limitNotImproved
    {
      tabuSize := tabuListSize;
      this.maxIterations := maxIterations;
      this.limitNotImproved := limitNotImproved;
    }

    /** The bounds of this driver. */
    function Tuning(): (b: Bounds)
      ensures b.tabuSize == tabuSize && b.maxIterations == maxIterations && b.limitNotImproved == limitNotImproved
    {
      Bounds(tabuSize, maxIterations, limitNotImproved)
    }

    /**
     * The update half of an iteration, after the move to `next`: it becomes
     * the best on a strict improvement in (penalty, total), which resets the
     * stagnation counter, otherwise the counter grows; the search converges
     * once the best has no penalty and the counter reached
     * limit_not_improved; otherwise the move is recorded in the tabu list,
     * whose oldest entry goes when it is over size. This is MoveTo.
     */
    method Advance(current: Schedule, best: Schedule, notImproved: int, tabu: seq<Schedule>, next: Schedule, ghost c: Constraints, ghost s: SearchState)
      returns (converged: bool, best': Schedule, notImproved': int, tabu': seq<Schedule>)
      requires current.Valid() && current.Params() == c && best.Valid() && best.Params() == c && AllValid(tabu, c)
      requires next.Valid() && next.Params() == c && s == State(current, best, tabu, notImproved)
      ensures best'.Valid() && best'.Params() == c && AllValid(tabu', c) && (best' == best || best' == next)
      ensures Better(next.score, best.score) ==> best' == next && notImproved' == 0
      ensures !Better(next.score, best.score) ==> best' == best && notImproved' == notImproved + 1
      ensures converged <==> best'.score.penalty == 0 && notImproved' >= limitNotImproved
      ensures converged ==> tabu' == tabu
      ensures !converged ==> tabu' == Enqueue(tabu, next, tabuSize)
      ensures var st := MoveTo(c, Tuning(), s, next.days);
        (converged <==> st.Halted?) && State(next, best', tabu', notImproved') == After(st)
    {
      MoveToRules(c, Tuning(), s, next.days);
      best', notImproved', tabu' := best, notImproved, tabu;
      if Better(next.score, best.score) {
        notImproved' := -1;
        best' := next;
      }
      notImproved' := notImproved' + 1;
      converged := best'.score.penalty == 0 && notImproved' >= limitNotImproved;
      if !converged {
        tabu' := Enqueue(tabu, next, tabuSize);
        DaysOfEnqueue(tabu, next, tabuSize);
        AllValidEnqueue(tabu, next, tabuSize, c);
      }
    }

    /**
     * One pass of the loop body of search: the move to the best non-tabu
     * neighbour and the update after it; with every neighbour tabu the
     * loop stops. This is the loop body `step`, which is Step, on the loop
     * variables.
     */
    method Iterate(current: Schedule, best: Schedule, notImproved: int, tabu: seq<Schedule>, ghost c: Constraints, ghost step: StepFn)
      returns (turn: Turn, current': Schedule, best': Schedule, notImproved': int, tabu': seq<Schedule>)
      requires current.Valid() && current.Params() == c && best.Valid() && best.Params() == c && AllValid(tabu, c)
      requires IsStep(c, Tuning(), step)
      ensures !turn.Raise? ==> current'.Valid() && current'.Params() == c && best'.Valid() && best'.Params() == c
      ensures !turn.Raise? ==> AllValid(tabu', c)
      ensures (current' == current || fresh(current')) && (best' == best || fresh(best'))
      ensures var st := step(old(State(current, best, tabu, notImproved)));
        && (turn.Raise? <==> st.Faulted?)
        && (turn.Raise? ==> turn.fault == st.fault)
        && (turn.Continue? <==> st.Moved?)
        && (turn.Continue? ==> State(current', best', tabu', notImproved') == st.next)
        && (turn.Halt? ==> turn.reason == st.reason && State(current', best', tabu', notImproved') == st.last)
    {
      ghost var s := State(current, best, tabu, notImproved);
      ghost var tabuDays := DaysOf(tabu);
      StepOfMove(c, Tuning(), step, s);
      turn, current', best', notImproved', tabu' := Continue, current, best, notImproved, tabu;
      var move := NextMove(current, tabu, c);
      assert DaysOf(tabu) == tabuDays;
      assert State(current, best, tabu, notImproved) == s;
      if move.Err? {
        return Raise(move.fault), current', best', notImproved', tabu';
      }
      if move.value.None? {
        return Halt(NoNeighbors), current', best', notImproved', tabu';
      }
      current' := move.value.value;
      var converged;
      converged, best', notImproved', tabu' := Advance(current, best, notImproved, tabu, current', c, s);
      if converged {
        turn := Halt(Converged);
      }
    }

    /**
     * search: evaluate the initial schedule, which starts as both the
     * current and the best one with an empty tabu list, and explore from
     * there. It computes Loop of the loop body `step`, which is Step, from
     * the initial rotation.
     */
    method Search(initial: Schedule, ghost step: StepFn) returns (r: Result<Schedule>)
      requires initial.Valid() && IsStep(initial.Params(), Tuning(), step)
      modifies initial`score
      ensures initial.Valid() && initial.score == old(initial.score)
      ensures var run := Loop(initial.Params(), step, maxIterations, Start(initial.days), 0);
        && (r.Err? <==> run.Failed?)
        && (r.Err? ==> r.fault == run.fault)
        && (r.Ok? ==> r.value.Valid() && r.value.Params() == initial.Params() && r.value.days == run.last.best)
      ensures r.Ok? ==> r.value == initial || fresh(r.value)
    {
      assert |Blocks(Types(initial.days))| > 0;
      initial.Evaluate();
      assert State(initial, initial, [], 0) == Start(initial.days);
      r := Explore(initial, initial, 0, [], 0, initial.Params(), step);
    }

    /**
     * The loop of search from the loop variables after `count` iterations:
     * iterate the loop body until no neighbour is left, until the best has
     * no penalty and has not improved for limit_not_improved iterations, or
     * past max_iterations. It computes Loop of `step` from there.
     */
    method Explore(current0: Schedule, best0: Schedule, notImproved0: int, tabu0: seq<Schedule>, count0: nat, ghost c: Constraints, ghost step: StepFn)
      returns (r: Result<Schedule>)
      requires current0.Valid() && current0.Params() == c && best0.Valid() && best0.Params() == c && AllValid(tabu0, c)
      requires count0 <= IterationBound(maxIterations) && IsStep(c, Tuning(), step)
      ensures var run := Loop(c, step, maxIterations, old(State(current0, best0, tabu0, notImproved0)), count0);
        && (r.Err? <==> run.Failed?)
        && (r.Err? ==> r.fault == run.fault)
        && (r.Ok? ==> r.value.Valid() && r.value.Params() == c && r.value.days == run.last.best)
      ensures r.Ok? ==> r.value == best0 || fresh(r.value)
    {
      ghost var start := State(current0, best0, tabu0, notImproved0);
      var current, best, notImproved, tabu, count := current0, best0, notImproved0, tabu0, count0;
      var turn := Continue;
      while count <= maxIterations && turn.Continue?
        invariant count0 <= count <= IterationBound(maxIterations)
        invariant !turn.Raise? ==> current.Valid() && current.Params() == c && best.Valid() && best.Params() == c && AllValid(tabu, c)
        invariant best == best0 || fresh(best)
        invariant turn.Continue? ==> Loop(c, step, maxIterations, State(current, best, tabu, notImproved), count) == Loop(c, step, maxIterations, start, count0)
        invariant turn.Raise? ==> Loop(c, step, maxIterations, start, count0) == Failed(turn.fault)
        invariant turn.Halt? ==> Loop(c, step, maxIterations, start, count0).Finished? && Loop(c, step, maxIterations, start, count0).last.best == best.days
        decreases maxIterations + 1 - count, if turn.Continue? then 1 else 0
      {
        turn, current, best, notImproved, tabu := Round(current, best, notImproved, tabu, count, c, step);
        if turn.Continue? {
          count := count + 1;
        }
      }
      if turn.Raise? {
        return Err(turn.fault);
      }
      if turn.Continue? {
        LoopUnfold(c, step, maxIterations, State(current, best, tabu, notImproved), count);
      }
      return Ok(best);
    }

    /**
     * One pass of the loop of search after `count` iterations: what Iterate
     * decides is what Loop does from there.
     */
    method Round(current: Schedule, best: Schedule, notImproved: int, tabu: seq<Schedule>, count: nat, ghost c: Constraints, ghost step: StepFn)
      returns (turn: Turn, current': Schedule, best': Schedule, notImproved': int, tabu': seq<Schedule>)
      requires current.Valid() && current.Params() == c && best.Valid() && best.Params() == c && AllValid(tabu, c)
      requires count <= maxIterations && IsStep(c, Tuning(), step)
      ensures !turn.Raise? ==> current'.Valid() && current'.Params() == c && best'.Valid() && best'.Params() == c
      ensures !turn.Raise? ==> AllValid(tabu', c)
      ensures best' == best || fresh(best')
      ensures var s := old(State(current, best, tabu, notImproved));
        && (turn.Raise? ==> Loop(c, step, maxIterations, s, count) == Failed(turn.fault))
        && (turn.Halt? ==> Loop(c, step, maxIterations, s, count) == Finished(turn.reason, State(current', best', tabu', notImproved'), count))
        && (turn.Continue? ==> Loop(c, step, maxIterations, s, count) == Loop(c, step, maxIterations, State(current', best', tabu', notImproved'), count + 1))
    {
      LoopUnfold(c, step, maxIterations, State(current, best, tabu, notImproved), count);
      turn, current', best', notImproved', tabu' := Iterate(current, best, notImproved, tabu, c, step);
    }
  }

  /**
   * The loop unfolded once from state `s` after `count` iterations: past
   * max_iterations it stops there; otherwise it does what the loop body
   * does, and carries on from the next state after a move.
   */
  lemma LoopUnfold(c: Constraints, step: StepFn, max: int, s: SearchState, count: nat)
    requires KeepsSized(c, step) && Sized(c, s)
    ensures count > max ==>
      Loop(c, step, max, s, count) == Finished(IterationLimit, s, count) && LoopVisited(c, step, max, s, count) == [s.current]
    ensures count <= max && step(s).Faulted? ==> Loop(c, step, max, s, count) == Failed(step(s).fault)
    ensures count <= max && step(s).Halted? ==>
      var st := step(s);
      && Loop(c, step, max, s, count) == Finished(st.reason, st.last, count)
      && LoopVisited(c, step, max, s, count) == (if st.reason == Converged then [s.current, st.last.current] else [s.current])
    ensures count <= max && step(s).Moved? ==>
      var next := step(s).next;
      && Loop(c, step, max, s, count) == Loop(c, step, max, next, count + 1)
      && LoopVisited(c, step, max, s, count) == [s.current] + LoopVisited(c, step, max, next, count + 1)
  {
  }

  /** The rotation generate_initial_schedule builds for `n` days. */
  function InitialRotation(n: nat, daysOff: seq<int>): (days: seq<Day>)
    ensures |days| == n && forall k :: 0 <= k < n ==> days[k] == InitialDay(k, daysOff)
  {
    seq(n, k requires 0 <= k < n => InitialDay(k, daysOff))
  }

  /** The bounds perform_tabu_search gives the search. */
  const DefaultBounds := Bounds(1000, 5000, 10)

  /**
   * perform_tabu_search: validate the parameters, generate the initial
   * schedule (which may append the default day off to the caller's list),
   * and search from it with a tabu list of 1000, 5000 iterations and a
   * stagnation limit of 10: the result is that of Run from the initial
   * rotation with those bounds.
   */
  method PerformTabuSearch(params: ScheduleParams) returns (r: Result<Schedule>)
    modifies params
    ensures ParamsVerdict(params.minWorking, params.minOff, old(params.daysOff)).Fail? ==>
      r == Err(ParamsVerdict(params.minWorking, params.minOff, old(params.daysOff)).fault)
      && params.daysOff == old(params.daysOff)
    ensures ParamsVerdict(params.minWorking, params.minOff, old(params.daysOff)).Pass? ==>
      params.daysOff == WithDefaultDayOff(params.minOff, old(params.daysOff))
    ensures ParamsVerdict(params.minWorking, params.minOff, old(params.daysOff)).Pass? && params.numDays < 1 ==>
      r == Err(EmptyHorizon)
    ensures ParamsVerdict(params.minWorking, params.minOff, old(params.daysOff)).Pass? && params.numDays >= 1 ==>
      var c := Constraints(params.numDays, params.maxWorking, params.minWorking, params.maxOff, params.minOff, params.daysOff);
      var run := Run(c, DefaultBounds, Start(InitialRotation(params.numDays, params.daysOff)), 0);
      && (r.Err? <==> run.Failed?)
      && (r.Err? ==> r.fault == run.fault)
      && (r.Ok? ==> r.value.Valid() && r.value.Params() == c && r.value.days == run.last.best)
      && (r.Err? <==> Unscannable(c, InitialRotation(params.numDays, params.daysOff)))
      && (r.Err? ==> r.fault == UnboundIndex)
      && (r.Ok? ==> Promises(c, DefaultBounds, InitialRotation(params.numDays, params.daysOff), run))
    ensures r.Err? && r.fault == UnboundIndex ==> params.numDays == 1
  {
    var verdict := CheckParams(params.minWorking, params.minOff, params.daysOff);
    if verdict.Fail? {
      ParamsVerdictRejects(params.minWorking, params.minOff, params.daysOff);
      return Err(verdict.fault);
    }
    var created := Schedule.Create(params, []);
    if created.Err? {
      return Err(created.fault);
    }
    var initial := created.value;
    assert initial.days == InitialRotation(params.numDays, params.daysOff);
    var tabuSearch := new TabuSearch(1000, 5000, 10);
    ghost var c := initial.Params();
    IterationIsStep(c, DefaultBounds);
    SearchFromStart(c, DefaultBounds, initial.days);
    var best := tabuSearch.Search(initial, Iteration(c, DefaultBounds));
    return best;
  }
}
