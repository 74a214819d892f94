/**
 * Move operators on values (model.py: create_schedule_new_day_off,
 * create_schedules_new_days_off, create_schedules_new_days_off_wd,
 * find_neighborhood). The Schedule methods are proved to build these.
 */
module Moves {
  import opened Wrappers
  import opened Days
  import opened Runs
  import opened BlockEncoding
  import opened Scoring

  function ShortWorking(c: Constraints): Block -> bool
  {
    (b: Block) => b.workingDays < c.minWorking
  }

  /**
   * The checks a flipped rotation must pass: the run now containing the
   * trigger day, whatever its type, is at most max_off long, and no block but
   * the last has fewer than min_working working days.
   */
  predicate Accepted(c: Constraints, t: seq<DayType>, trigger: nat)
    requires trigger < |t|
  {
    var bs := Blocks(t);
    RunLength(t, trigger) <= c.maxOff && |Filter(bs[..|bs| - 1], ShortWorking(c))| == 0
  }

  /** A clone of `days` with day `target` set OFF, kept only when it passes the checks. */
  function NewDayOff(c: Constraints, days: seq<Day>, trigger: nat, target: nat): Option<seq<Day>>
    requires trigger < |days| && target < |days|
  {
    var attempt := FlipOff(days, target);
    if Accepted(c, Types(attempt), trigger) then Some(attempt) else None
  }

  function OptionToSeq(o: Option<seq<Day>>): seq<seq<Day>>
  {
    if o.Some? then [o.value] else []
  }

  /** Targets for an OFF day: the day reached scanning right, then the one reached scanning left. */
  function OffTargets(t: seq<DayType>, i: nat): (r: seq<int>)
    requires i < |t|
    ensures forall k :: 0 <= k < |r| ==> 0 <= r[k] < |t|
  {
    [NextBoundary(t, i, true), NextBoundary(t, i, false)]
  }

  /** Index taken for the last working day of the run of `i`: one before the right scan's result. */
  function LastWorking(t: seq<DayType>, i: nat): (r: nat)
    requires 2 <= |t| && i < |t|
    ensures r < |t|
  {
    assert RunFrom(t, i, t[i]) >= 1;
    NextBoundary(t, i, true) - 1
  }

  /** Index taken for the first working day of the run of `i`: one after the left scan's result. */
  function FirstWorking(t: seq<DayType>, i: nat): (r: nat)
    requires 2 <= |t| && i < |t|
    ensures r < |t|
  {
    NextBoundary(t, i, false) + 1
  }

  /**
   * Targets for a WORKING day: the last and the first working day of its run
   * as the scans find them, then the day min_working before the last and the
   * day min_working after the first (these two may lie off the horizon).
   */
  function WorkingTargets(c: Constraints, t: seq<DayType>, i: nat): (r: seq<int>)
    requires 2 <= |t| && i < |t|
    ensures |r| == 4 && 0 <= r[0] < |t| && 0 <= r[1] < |t|
  {
    var last := LastWorking(t, i);
    var first := FirstWorking(t, i);
    [last, first, last - c.minWorking, first + c.minWorking]
  }

  /** The clone kept when `target` is set OFF for trigger day `trigger`; none for a day off the horizon. */
  function InHorizon(c: Constraints, days: seq<Day>, trigger: nat, target: int): (r: seq<seq<Day>>)
    requires trigger < |days|
    ensures |r| <= 1
  {
    if 0 <= target < |days| then OptionToSeq(NewDayOff(c, days, trigger, target)) else []
  }

  /** The clones kept when the targets are tried in order, each on a fresh copy of `days`. */
  function KeepEach(c: Constraints, days: seq<Day>, trigger: nat, targets: seq<int>): (r: seq<seq<Day>>)
    requires trigger < |days|
    ensures |r| <= |targets|
    decreases |targets|
  {
    if targets == [] then []
    else
      var n := |targets| - 1;
      KeepEach(c, days, trigger, targets[..n]) + InHorizon(c, days, trigger, targets[n])
  }

  /** Trying one more target appends its clone, if kept. */
  lemma KeepEachSnoc(c: Constraints, days: seq<Day>, trigger: nat, targets: seq<int>, x: int)
    requires trigger < |days|
    ensures KeepEach(c, days, trigger, targets + [x])
      == KeepEach(c, days, trigger, targets) + InHorizon(c, days, trigger, x)
  {
    assert (targets + [x])[..|targets|] == targets;
  }

  /** The OFF targets as the operator tries them, one after the other. */
  lemma OffTargetsInTurn(t: seq<DayType>, i: nat, right: int, left: int)
    requires i < |t| && right == NextBoundary(t, i, true) && left == NextBoundary(t, i, false)
    ensures [] + [right] + [left] == OffTargets(t, i)
  {
  }

  /** The WORKING targets as the operator tries them, one after the other. */
  lemma WorkingTargetsInTurn(c: Constraints, t: seq<DayType>, i: nat, last: int, first: int, back: int, on: int)
    requires 2 <= |t| && i < |t|
    requires last == LastWorking(t, i) && first == FirstWorking(t, i)
    requires back == last - c.minWorking && on == first + c.minWorking
    ensures [] + [last] + [first] + [back] + [on] == WorkingTargets(c, t, i)
  {
  }

  /**
   * create_schedules_new_days_off on values: the clones for the day the right
   * scan reaches and the day the left scan reaches. A one-day horizon leaves
   * the scan's result unbound.
   */
  function OffRunMoves(c: Constraints, days: seq<Day>, i: nat): Result<seq<seq<Day>>>
    requires i < |days|
  {
    if |days| == 1 then Err(UnboundIndex)
    else Ok(KeepEach(c, days, i, OffTargets(Types(days), i)))
  }

  /** create_schedules_new_days_off_wd on values: the clones for the four working targets. */
  function WorkingRunMoves(c: Constraints, days: seq<Day>, i: nat): Result<seq<seq<Day>>>
    requires i < |days|
  {
    if |days| == 1 then Err(UnboundIndex)
    else Ok(KeepEach(c, days, i, WorkingTargets(c, Types(days), i)))
  }

  /** Day `i` is OFF and its off run is shorter than min_off. */
  predicate ShortOffRun(c: Constraints, t: seq<DayType>, i: nat)
    requires i < |t|
  {
    t[i] == Off && RunLength(t, i) < c.minOff
  }

  /** Day `i` is WORKING and its working run is longer than max_working. */
  predicate LongWorkingRun(c: Constraints, t: seq<DayType>, i: nat)
    requires i < |t|
  {
    t[i] == Working && RunLength(t, i) > c.maxWorking
  }

  /** The moves the loop of find_neighborhood adds for day `i`. */
  function DayMoves(c: Constraints, days: seq<Day>, i: nat): Result<seq<seq<Day>>>
    requires i < |days| == c.numDays
  {
    var t := Types(days);
    if ShortOffRun(c, t, i) then OffRunMoves(c, days, i)
    else if LongWorkingRun(c, t, i) then WorkingRunMoves(c, days, i)
    else Ok([])
  }

  /** The moves of the first `n` days, in day order; the first fault ends the scan. */
  function NeighborhoodUpTo(c: Constraints, days: seq<Day>, n: nat): Result<seq<seq<Day>>>
    requires n <= |days| == c.numDays
  {
    if n == 0 then Ok([])
    else
      match NeighborhoodUpTo(c, days, n - 1)
      case Err(f) => Err(f)
      case Ok(before) =>
        match DayMoves(c, days, n - 1)
        case Err(f) => Err(f)
        case Ok(moves) => Ok(before + moves)
  }

  /** find_neighborhood on values. */
  function Neighborhood(c: Constraints, days: seq<Day>): Result<seq<seq<Day>>>
    requires |days| == c.numDays
  {
    NeighborhoodUpTo(c, days, |days|)
  }

  lemma {:induction false} FilterEmpty(bs: seq<Block>, keep: Block -> bool)
    ensures |Filter(bs, keep)| == 0 <==> forall k :: 0 <= k < |bs| ==> !keep(bs[k])
    decreases |bs|
  {
    if bs != [] {
      FilterEmpty(bs[1..], keep);
      assert forall k :: 0 < k < |bs| ==> bs[k] == bs[1..][k - 1];
    }
  }

  /** Candidate targets the operators compute for trigger day `i`. */
  function Targets(c: Constraints, t: seq<DayType>, i: nat): seq<int>
    requires 2 <= |t| && i < |t|
  {
    if t[i] == Off then OffTargets(t, i) else WorkingTargets(c, t, i)
  }

  /**
   * A clone is kept exactly when the run containing the trigger day is at
   * most max_off long and no block but the last is short of min_working; a
   * kept clone differs from `days` only in that the target day is OFF.
   */
  lemma NewDayOffMeaning(c: Constraints, days: seq<Day>, trigger: nat, target: nat)
    requires trigger < |days| && target < |days|
    ensures var r := FlipOff(days, target); var t := Types(r); var bs := Blocks(t);
      NewDayOff(c, days, trigger, target).Some? <==>
        RunLength(t, trigger) <= c.maxOff && forall k :: 0 <= k < |bs| - 1 ==> bs[k].workingDays >= c.minWorking
    ensures NewDayOff(c, days, trigger, target).Some? ==>
      var r := NewDayOff(c, days, trigger, target).value;
      && |r| == |days|
      && r[target].dayType == Off
      && (forall k :: 0 <= k < |days| && k != target ==> r[k] == days[k])
  {
    var bs := Blocks(Types(FlipOff(days, target)));
    FilterEmpty(bs[..|bs| - 1], ShortWorking(c));
  }

  /** Every neighbour comes from a trigger day and one of its candidate targets. */
  ghost predicate FromTrigger(c: Constraints, days: seq<Day>, r: seq<Day>)
    requires |days| == c.numDays
  {
    exists i: nat, j: int :: i < |days| && 2 <= |days|
      && (ShortOffRun(c, Types(days), i) || LongWorkingRun(c, Types(days), i))
      && j in Targets(c, Types(days), i) && 0 <= j < |days|
      && NewDayOff(c, days, i, j) == Some(r)
  }

  /** Each kept clone is the accepted clone of one of the targets tried, returned as `j`. */
  lemma {:induction false} KeepEachFrom(c: Constraints, days: seq<Day>, i: nat, targets: seq<int>, r: seq<Day>)
    returns (j: int)
    requires i < |days| && r in KeepEach(c, days, i, targets)
    ensures j in targets && 0 <= j < |days| && NewDayOff(c, days, i, j) == Some(r)
    decreases |targets|
  {
    var n := |targets| - 1;
    var init := targets[..n];
    if r in KeepEach(c, days, i, init) {
      j := KeepEachFrom(c, days, i, init, r);
      assert j in targets by {
        var k :| 0 <= k < |init| && init[k] == j;
        assert targets[k] == j;
      }
    } else {
      j := targets[n];
      assert r in InHorizon(c, days, i, j);
    }
  }

  lemma DayMovesFromTrigger(c: Constraints, days: seq<Day>, i: nat, moves: seq<seq<Day>>)
    requires i < |days| == c.numDays && DayMoves(c, days, i) == Ok(moves)
    ensures forall r :: r in moves ==> FromTrigger(c, days, r)
  {
    var t := Types(days);
    if |days| >= 2 && (ShortOffRun(c, t, i) || LongWorkingRun(c, t, i)) {
      assert moves == KeepEach(c, days, i, Targets(c, t, i));
      forall r | r in moves
        ensures FromTrigger(c, days, r)
      {
        var j := KeepEachFrom(c, days, i, Targets(c, t, i), r);
      }
    }
  }

  /**
   * Neighbours come only from the two triggers (an off run shorter than
   * min_off, a working run longer than max_working), each one a clone with a
   * candidate target set OFF that passed the checks.
   */
  lemma NeighborhoodStep(c: Constraints, days: seq<Day>, n: nat, spec: seq<seq<Day>>)
    returns (before: seq<seq<Day>>, moves: seq<seq<Day>>)
    requires 0 < n <= |days| == c.numDays && NeighborhoodUpTo(c, days, n) == Ok(spec)
    ensures NeighborhoodUpTo(c, days, n - 1) == Ok(before) && DayMoves(c, days, n - 1) == Ok(moves)
    ensures spec == before + moves
  {
    before, moves := NeighborhoodUpTo(c, days, n - 1).value, DayMoves(c, days, n - 1).value;
  }

  lemma {:induction false} NeighborhoodFromTriggers(c: Constraints, days: seq<Day>, n: nat, spec: seq<seq<Day>>)
    requires n <= |days| == c.numDays && NeighborhoodUpTo(c, days, n) == Ok(spec)
    ensures forall r :: r in spec ==> FromTrigger(c, days, r)
    decreases n
  {
    if n > 0 {
      var before, moves := NeighborhoodStep(c, days, n, spec);
      NeighborhoodFromTriggers(c, days, n - 1, before);
      DayMovesFromTrigger(c, days, n - 1, moves);
      FromTriggerAppend(c, days, before, moves);
    }
  }

  lemma FromTriggerAppend(c: Constraints, days: seq<Day>, a: seq<seq<Day>>, b: seq<seq<Day>>)
    requires |days| == c.numDays
    requires forall r :: r in a ==> FromTrigger(c, days, r)
    requires forall r :: r in b ==> FromTrigger(c, days, r)
    ensures forall r :: r in a + b ==> FromTrigger(c, days, r)
  {
  }

  /** One more day of the scan: its moves are appended, or its fault ends the scan. */
  lemma NeighborhoodNext(c: Constraints, days: seq<Day>, k: nat)
    requires k < |days| == c.numDays && NeighborhoodUpTo(c, days, k).Ok?
    ensures DayMoves(c, days, k).Ok? ==>
      NeighborhoodUpTo(c, days, k + 1) == Ok(NeighborhoodUpTo(c, days, k).value + DayMoves(c, days, k).value)
    ensures DayMoves(c, days, k).Err? ==> NeighborhoodUpTo(c, days, k + 1) == Err(DayMoves(c, days, k).fault)
  {
  }

  /** Once a day's moves fail, the scan stays failed. */
  lemma {:induction false} NeighborhoodErrPersists(c: Constraints, days: seq<Day>, k: nat, n: nat)
    requires k <= n <= |days| == c.numDays && NeighborhoodUpTo(c, days, k).Err?
    ensures NeighborhoodUpTo(c, days, n).Err?
    ensures NeighborhoodUpTo(c, days, n).fault == NeighborhoodUpTo(c, days, k).fault
    decreases n - k
  {
    if k < n {
      NeighborhoodErrPersists(c, days, k + 1, n);
    }
  }

  /** A neighbour of a well-formed rotation is well formed and has no more working days. */
  lemma NeighborWellFormed(c: Constraints, days: seq<Day>, r: seq<Day>)
    requires |days| == c.numDays && WellFormedDays(days) && FromTrigger(c, days, r)
    ensures |r| == |days| && WellFormedDays(r)
    ensures CountWorking(Types(r)) <= CountWorking(Types(days))
  {
    var i: nat, j: int :| i < |days| && 0 <= j < |days| && NewDayOff(c, days, i, j) == Some(r);
    var attempt := FlipOff(days, j);
    assert NewDayOff(c, days, i, j) == if Accepted(c, Types(attempt), i) then Some(attempt) else None;
    assert r == attempt;
    FlipOffWellFormed(days, j);
    assert Types(r) == Types(FlipOff(days, j));
  }

  /** Day moves fail only on a one-day horizon whose day triggers a move. */
  lemma DayMovesFault(c: Constraints, days: seq<Day>, i: nat)
    requires i < |days| == c.numDays
    ensures DayMoves(c, days, i).Err? <==>
      |days| == 1 && (ShortOffRun(c, Types(days), i) || LongWorkingRun(c, Types(days), i))
    ensures DayMoves(c, days, i).Err? ==> DayMoves(c, days, i).fault == UnboundIndex
  {
  }

  /**
   * The neighbourhood scan fails (the source's unbound variable) exactly when
   * the horizon has one day and that day triggers a move.
   */
  lemma {:induction false} NeighborhoodFault(c: Constraints, days: seq<Day>)
    requires 1 <= |days| == c.numDays
    ensures Neighborhood(c, days).Err? <==>
      |days| == 1 && (ShortOffRun(c, Types(days), 0) || LongWorkingRun(c, Types(days), 0))
    ensures Neighborhood(c, days).Err? ==> Neighborhood(c, days).fault == UnboundIndex
  {
    if |days| == 1 {
      DayMovesFault(c, days, 0);
      assert NeighborhoodUpTo(c, days, 0) == Ok([]);
    } else {
      NeighborhoodOkOnLongHorizon(c, days, |days|);
    }
  }

  lemma {:induction false} NeighborhoodOkOnLongHorizon(c: Constraints, days: seq<Day>, n: nat)
    requires n <= |days| == c.numDays && |days| >= 2
    ensures NeighborhoodUpTo(c, days, n).Ok?
  {
    if n > 0 {
      NeighborhoodOkOnLongHorizon(c, days, n - 1);
    }
  }

  /** Seven mutable working days, indexed 0 to 6. */
  ghost predicate IsWorkingWeek(days: seq<Day>)
  {
    |days| == 7 && forall k :: 0 <= k < 7 ==> days[k] == Day(Working, k, true)
  }

  /** max_working 5, min_working 2, max_off 3, min_off 1, no fixed days off. */
  const Week := Constraints(7, 5, 2, 3, 1, [])

  lemma ExampleTargets(days: seq<Day>)
    requires IsWorkingWeek(days)
    ensures LastWorking(Types(days), 0) == 5
    ensures FirstWorking(Types(days), 0) == 1
  {
    var t := Types(days);
    assert t == seq(7, k => Working);
    RunFromExact(t, 0, Working, 7);
  }

  /** Flipping day 5 is rejected: the working run 0..4 of the trigger is compared against max_off. */
  lemma ExampleFlipFiveRejected(days: seq<Day>)
    requires IsWorkingWeek(days)
    ensures NewDayOff(Week, days, 0, 5) == None
  {
    var W, O := Working, Off;
    var t5 := Types(FlipOff(days, 5));
    assert t5 == [W, W, W, W, W, O, W];
    RunFromExact(t5, 0, W, 5);
    assert RunLength(t5, 0) == 5;
  }

  /** Flipping day 1 is rejected: the first block has one working day. */
  lemma ExampleFlipOneRejected(days: seq<Day>)
    requires IsWorkingWeek(days)
    ensures NewDayOff(Week, days, 0, 1) == None
  {
    var W, O := Working, Off;
    var t1 := Types(FlipOff(days, 1));
    assert t1 == [W, O, W, W, W, W, W];
    RunFromExact(t1, 0, W, 1);
    RunFromExact(t1, 1, O, 1);
    assert Blocks(t1)[0] == Block(1, 1);
    assert Blocks(t1)[..|Blocks(t1)| - 1][0] == Block(1, 1);
  }

  /** Flipping day 3 is kept: runs of three working days around one day off. */
  lemma ExampleFlipThreeKept(days: seq<Day>)
    requires IsWorkingWeek(days)
    ensures NewDayOff(Week, days, 0, 3) == Some(FlipOff(days, 3))
  {
    var W, O := Working, Off;
    var t3 := Types(FlipOff(days, 3));
    assert t3 == [W, W, W, O, W, W, W];
    RunFromExact(t3, 0, W, 3);
    assert RunLength(t3, 0) == 3;
    RunFromExact(t3, 3, O, 1);
    var rest := t3[4..];
    assert rest == [W, W, W];
    RunFromExact(rest, 0, W, 3);
    RunFromExact(rest, 3, O, 0);
    assert Blocks(rest) == [Block(3, 0)] + Blocks(rest[3..]);
    assert Blocks(t3) == [Block(3, 1), Block(3, 0)];
  }

  lemma ExampleWorkingTargets(days: seq<Day>)
    requires IsWorkingWeek(days)
    ensures WorkingTargets(Week, Types(days), 0) == [5, 1, 3, 3]
  {
    ExampleTargets(days);
  }

  /**
   * On a horizon that is one working run of seven days, the scans stop at the
   * edge of the horizon and the operator takes days 5 and 1 for the last and
   * first working day of the run 0..6. Both flips are rejected; only the two
   * day-3 flips (5 - 2 and 1 + 2) survive.
   */
  lemma EdgeClampExample(days: seq<Day>)
    requires IsWorkingWeek(days)
    ensures WorkingTargets(Week, Types(days), 0) == [5, 1, 3, 3]
    ensures WorkingRunMoves(Week, days, 0) == Ok([FlipOff(days, 3), FlipOff(days, 3)])
  {
    ExampleWorkingTargets(days);
    ExampleKeepEach(days);
  }

  /** Trying 5, 1, 3 and 3 in turn keeps the day-3 clone twice. */
  lemma ExampleKeepEach(days: seq<Day>)
    requires IsWorkingWeek(days)
    ensures KeepEach(Week, days, 0, [5, 1, 3, 3]) == [FlipOff(days, 3), FlipOff(days, 3)]
  {
    ExampleFlipFiveRejected(days);
    ExampleFlipOneRejected(days);
    ExampleFlipThreeKept(days);
    var kept := [FlipOff(days, 3)];
    assert InHorizon(Week, days, 0, 3) == kept;
    KeepEachSnoc(Week, days, 0, [], 5);
    assert [] + [5] == [5];
    assert KeepEach(Week, days, 0, [5]) == [];
    KeepEachSnoc(Week, days, 0, [5], 1);
    assert [5] + [1] == [5, 1];
    assert KeepEach(Week, days, 0, [5, 1]) == [];
    KeepEachSnoc(Week, days, 0, [5, 1], 3);
    assert [5, 1] + [3] == [5, 1, 3];
    assert KeepEach(Week, days, 0, [5, 1, 3]) == kept;
    KeepEachSnoc(Week, days, 0, [5, 1, 3], 3);
    assert [5, 1, 3] + [3] == [5, 1, 3, 3];
  }
}
