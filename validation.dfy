/** The parameter validator run before a search (model.py: check_params). */
module Validation {
  import opened Wrappers

  predicate IsSorted(s: seq<int>)
  {
    forall i, j :: 0 <= i < j < |s| ==> s[i] <= s[j]
  }

  /** `x` placed into the sorted sequence `s` before its first larger element. */
  function Insert(x: int, s: seq<int>): (r: seq<int>)
    requires IsSorted(s)
    ensures IsSorted(r) && multiset(r) == multiset(s) + multiset{x}
    ensures |r| == |s| + 1 && (r[0] == x || (|s| > 0 && r[0] == s[0]))
  {
    if s == [] || x <= s[0] then [x] + s
    else
      var rest := Insert(x, s[1..]);
      assert s == [s[0]] + s[1..];
      assert s[0] <= rest[0];
      [s[0]] + rest
  }

  /** Python's `sorted` on a list of integers: ascending, the same elements. */
  function Sort(s: seq<int>): (r: seq<int>)
    ensures IsSorted(r) && multiset(r) == multiset(s) && |r| == |s|
  {
    if s == [] then []
    else
      assert s == [s[0]] + s[1..];
      Insert(s[0], Sort(s[1..]))
  }

  /** Sorting a list that is already in ascending order leaves it as it is. */
  lemma {:induction false} SortSorted(s: seq<int>)
    requires IsSorted(s)
    ensures Sort(s) == s
  {
    if s != [] {
      SortSorted(s[1..]);
      assert s == [s[0]] + s[1..];
    }
  }

  /** Python's `min` on a non-empty list. */
  function MinOf(s: seq<int>): (m: int)
    requires |s| > 0
    ensures m in s && forall k :: 0 <= k < |s| ==> m <= s[k]
  {
    if |s| == 1 then s[0]
    else
      var rest := MinOf(s[1..]);
      assert forall k :: 1 <= k < |s| ==> s[k] == s[1..][k - 1];
      if s[0] <= rest then s[0] else rest
  }

  /** DAY_NAME (constants.py): the weekday names, Sunday under both 7 and 0; None for a missing key. */
  function DayName(d: int): (name: Option<string>)
    ensures name.Some? <==> 0 <= d <= 7
  {
    match d
    case 1 => Some("Monday")
    case 2 => Some("Tuesday")
    case 3 => Some("Wednesday")
    case 4 => Some("Thursday")
    case 5 => Some("Friday")
    case 6 => Some("Saturday")
    case 7 => Some("Sunday")
    case 0 => Some("Sunday")
    case _ => None
  }

  /** Every weekday in `named` is a key of DAY_NAME. */
  function AllNamed(named: seq<int>): (b: bool)
    ensures b <==> forall k :: 0 <= k < |named| ==> 0 <= named[k] <= 7
  {
    named == [] || (DayName(named[0]).Some? && AllNamed(named[1..]))
  }

  /**
   * A failed rule whose message names the weekdays `named`: building the
   * message looks each of them up in DAY_NAME, and a weekday it lacks turns
   * the assertion failure into a KeyError.
   */
  function Report(rule: ParamRule, named: seq<int>): (o: Outcome)
    ensures o.Fail?
    ensures o.fault == InvalidParams(rule) <==> forall k :: 0 <= k < |named| ==> 0 <= named[k] <= 7
    ensures o.fault != InvalidParams(rule) ==> o.fault == UnknownWeekday
  {
    if AllNamed(named) then Fail(InvalidParams(rule)) else Fail(UnknownWeekday)
  }

  /**
   * The gap rule at loop position `i`: the source compares the next element
   * of the list AS GIVEN with element `i` of the SORTED list; a difference
   * greater than one must exceed min_working.
   */
  predicate GapOk(sorted: seq<int>, daysOff: seq<int>, minWorking: int, i: nat)
    requires i + 1 < |daysOff| == |sorted|
  {
    daysOff[i + 1] - sorted[i] > 1 ==> daysOff[i + 1] - sorted[i] > minWorking
  }

  /** The gap checks from position `i` on: the first failing position is reported. */
  function GapVerdict(sorted: seq<int>, daysOff: seq<int>, minWorking: int, i: nat): Outcome
    requires |daysOff| == |sorted|
    decreases |daysOff| - i
  {
    if i + 1 >= |daysOff| then Pass
    else if !GapOk(sorted, daysOff, minWorking, i) then Report(GapTooShort(i), daysOff)
    else GapVerdict(sorted, daysOff, minWorking, i + 1)
  }

  /** check_params on values: the rules in the source's order, the first failure wins. */
  function ParamsVerdict(minWorking: int, minOff: int, daysOff: seq<int>): Outcome
  {
    if daysOff == [] then Pass
    else if minWorking > 3 && minOff >= 1 then Fail(InvalidParams(LongMinWorkingWithDaysOff))
    else if MinOf(daysOff) - minWorking < 1 then Report(NoRoomBeforeFirstDayOff, [MinOf(daysOff)])
    else if minWorking > MinOf(daysOff) then Report(MinWorkingAfterFirstDayOff, [MinOf(daysOff)])
    else if |daysOff| > 1 then GapVerdict(Sort(daysOff), daysOff, minWorking, 0)
    else Pass
  }

  /** The gap checks pass exactly when every position from `i` on passes. */
  lemma {:induction false} GapVerdictPass(sorted: seq<int>, daysOff: seq<int>, minWorking: int, i: nat)
    requires |daysOff| == |sorted|
    ensures GapVerdict(sorted, daysOff, minWorking, i).Pass? <==>
      forall j :: i <= j && j + 1 < |daysOff| ==> GapOk(sorted, daysOff, minWorking, j)
    decreases |daysOff| - i
  {
    if i + 1 < |daysOff| {
      GapVerdictPass(sorted, daysOff, minWorking, i + 1);
    }
  }

  /** A reported gap fails, and every position before it passed. */
  lemma {:induction false} GapVerdictFirst(sorted: seq<int>, daysOff: seq<int>, minWorking: int, i: nat, p: nat)
    requires |daysOff| == |sorted| && GapVerdict(sorted, daysOff, minWorking, i) == Fail(InvalidParams(GapTooShort(p)))
    ensures i <= p && p + 1 < |daysOff| && !GapOk(sorted, daysOff, minWorking, p)
    ensures forall j :: i <= j < p ==> GapOk(sorted, daysOff, minWorking, j)
    decreases |daysOff| - i
  {
    if i + 1 < |daysOff| && GapOk(sorted, daysOff, minWorking, i) {
      GapVerdictFirst(sorted, daysOff, minWorking, i + 1, p);
    }
  }

  /** Every rule check_params enforces, stated on the parameters. */
  predicate RulesHold(minWorking: int, minOff: int, daysOff: seq<int>)
  {
    || daysOff == []
    || (&& !(minWorking > 3 && minOff >= 1)
        && MinOf(daysOff) - minWorking >= 1
        && minWorking <= MinOf(daysOff)
        && forall j :: 0 <= j && j + 1 < |daysOff| ==> GapOk(Sort(daysOff), daysOff, minWorking, j))
  }

  /** The checks pass exactly when all four rules hold. */
  lemma ParamsVerdictPass(minWorking: int, minOff: int, daysOff: seq<int>)
    ensures ParamsVerdict(minWorking, minOff, daysOff).Pass? <==> RulesHold(minWorking, minOff, daysOff)
  {
    if daysOff != [] && |daysOff| > 1 {
      GapVerdictPass(Sort(daysOff), daysOff, minWorking, 0);
    }
  }

  /**
   * The third rule never fires: once min(days_off) - min_working >= 1 holds,
   * min_working <= min(days_off) holds too.
   */
  lemma MinWorkingRuleUnreachable(minWorking: int, minOff: int, daysOff: seq<int>)
    ensures ParamsVerdict(minWorking, minOff, daysOff) != Fail(InvalidParams(MinWorkingAfterFirstDayOff))
  {
    if daysOff != [] && |daysOff| > 1 {
      GapVerdictShape(Sort(daysOff), daysOff, minWorking, 0);
    }
  }

  /**
   * A rejection names one of the parameter rules, or is the KeyError of a
   * weekday outside DAY_NAME.
   */
  lemma ParamsVerdictRejects(minWorking: int, minOff: int, daysOff: seq<int>)
    ensures ParamsVerdict(minWorking, minOff, daysOff).Fail? ==>
      ParamsVerdict(minWorking, minOff, daysOff).fault.InvalidParams?
      || ParamsVerdict(minWorking, minOff, daysOff).fault == UnknownWeekday
    ensures (forall k :: 0 <= k < |daysOff| ==> 0 <= daysOff[k] <= 7) && ParamsVerdict(minWorking, minOff, daysOff).Fail? ==>
      ParamsVerdict(minWorking, minOff, daysOff).fault.InvalidParams?
  {
    if daysOff != [] && |daysOff| > 1 {
      GapVerdictShape(Sort(daysOff), daysOff, minWorking, 0);
    }
  }

  /** The gap checks fail only with a gap position, or with the KeyError of a weekday outside DAY_NAME. */
  lemma {:induction false} GapVerdictShape(sorted: seq<int>, daysOff: seq<int>, minWorking: int, i: nat)
    requires |daysOff| == |sorted|
    ensures var v := GapVerdict(sorted, daysOff, minWorking, i);
      v.Fail? ==> (v.fault.InvalidParams? && v.fault.rule.GapTooShort?) || v.fault == UnknownWeekday
    ensures var v := GapVerdict(sorted, daysOff, minWorking, i);
      v.Fail? && (forall k :: 0 <= k < |daysOff| ==> 0 <= daysOff[k] <= 7) ==> v.fault.InvalidParams?
    decreases |daysOff| - i
  {
    if i + 1 < |daysOff| && GapOk(sorted, daysOff, minWorking, i) {
      GapVerdictShape(sorted, daysOff, minWorking, i + 1);
    }
  }

  /**
   * The verdict depends on the order the days off are given in: with
   * min_working 2, days off [3, 5] fail the gap rule (5 - 3 = 2 is not above
   * 2), while [5, 3] pass it (ExampleOrderMattersReversed).
   */
  lemma ExampleOrderMatters()
    ensures ParamsVerdict(2, 1, [3, 5]) == Fail(InvalidParams(GapTooShort(0)))
  {
    SortSorted([3, 5]);
    assert !GapOk([3, 5], [3, 5], 2, 0);
    assert Report(GapTooShort(0), [3, 5]) == Fail(InvalidParams(GapTooShort(0)));
    assert GapVerdict([3, 5], [3, 5], 2, 0) == Fail(InvalidParams(GapTooShort(0)));
  }

  /**
   * Days off [5, 3] with min_working 2 pass the gap rule, because position 0
   * compares 3 (the list as given) with 3 (the sorted list).
   */
  lemma ExampleOrderMattersReversed()
    ensures ParamsVerdict(2, 1, [5, 3]) == Pass
  {
    assert Sort([3]) == [3];
    assert [5, 3][1..] == [3];
    assert Sort([5, 3]) == Insert(5, [3]) == [3, 5];
  }

  /**
   * A Tuesday day off leaves no room for two working days after the Monday
   * that starts the horizon: with min_working 2, days off [2, 5] are rejected
   * by the second rule.
   */
  lemma ExampleTuesdayDayOff()
    ensures ParamsVerdict(2, 1, [2, 5]) == Fail(InvalidParams(NoRoomBeforeFirstDayOff))
  {
    assert [2, 5][1..] == [5];
    assert MinOf([2, 5]) == 2;
  }

  /** Friday and Saturday off with min_working 2 pass every rule. */
  lemma ExampleWeekendDaysOff()
    ensures ParamsVerdict(2, 1, [5, 6]) == Pass
  {
    assert [5, 6][1..] == [6];
    assert MinOf([5, 6]) == 5;
    assert Sort([6]) == [6];
    assert Sort([5, 6]) == Insert(5, [6]) == [5, 6];
  }

  /**
   * A weekday outside DAY_NAME makes a failing check raise KeyError instead:
   * with min_working 2, days off [3, 5, 8] fail the gap rule at position 0,
   * whose message names every day off, 8 among them.
   */
  lemma ExampleUnknownWeekdayInGap()
    ensures ParamsVerdict(2, 1, [3, 5, 8]) == Fail(UnknownWeekday)
  {
    assert [3, 5, 8][1..] == [5, 8];
    assert [5, 8][1..] == [8];
    assert MinOf([3, 5, 8]) == 3;
    SortSorted([3, 5, 8]);
    assert !GapOk([3, 5, 8], [3, 5, 8], 2, 0);
    assert [3, 5, 8][2] == 8;
    assert Report(GapTooShort(0), [3, 5, 8]) == Fail(UnknownWeekday);
    assert GapVerdict([3, 5, 8], [3, 5, 8], 2, 0) == Fail(UnknownWeekday);
  }

  /** A negative first day off: the message for the room rule has no name for it. */
  lemma ExampleUnknownWeekdayFirst()
    ensures ParamsVerdict(0, 1, [-1]) == Fail(UnknownWeekday)
  {
    assert MinOf([-1]) == -1;
    assert Report(NoRoomBeforeFirstDayOff, [-1]) == Fail(UnknownWeekday);
  }

  /** Weekday 8 alone passes: no message is built, so no name is looked up. */
  lemma ExampleUnnamedWeekdayPasses()
    ensures ParamsVerdict(2, 1, [8]) == Pass
  {
    assert MinOf([8]) == 8;
  }

  /**
   * check_params: with no mandatory day off nothing is checked; then the
   * min_working/min_off rule, the room before the first day off, and the gap
   * rule along the sorted list.
   */
  method CheckParams(minWorking: int, minOff: int, daysOff: seq<int>) returns (o: Outcome)
    ensures o == ParamsVerdict(minWorking, minOff, daysOff)
  {
    if daysOff == [] {
      return Pass;
    }
    if minWorking > 3 && minOff >= 1 {
      return Fail(InvalidParams(LongMinWorkingWithDaysOff));
    }
    var first := MinOf(daysOff);
    if first - minWorking < 1 {
      return Report(NoRoomBeforeFirstDayOff, [first]);
    }
    if minWorking > first {
      return Report(MinWorkingAfterFirstDayOff, [first]);
    }
    if |daysOff| > 1 {
      var sorted := Sort(daysOff);
      for i := 0 to |sorted|
        invariant GapVerdict(sorted, daysOff, minWorking, 0) == GapVerdict(sorted, daysOff, minWorking, i)
      {
        var dayOff := sorted[i];
        if i + 1 < |daysOff| {
          if daysOff[i + 1] - dayOff > 1 {
            if !(daysOff[i + 1] - dayOff > minWorking) {
              return Report(GapTooShort(i), daysOff);
            }
          }
        }
      }
    }
    return Pass;
  }
}
