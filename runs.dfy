/** Day-run utilities (utils.py: cons_days_number, get_next_available_day). */
module Runs {
  import opened Wrappers
  import opened Days

  /** Number of consecutive days of type `ty` starting at index `i`. */
  function RunFrom(t: seq<DayType>, i: nat, ty: DayType): (n: nat)
    requires i <= |t|
    ensures i + n <= |t|
    decreases |t| - i
  {
    if i == |t| || t[i] != ty then 0 else 1 + RunFrom(t, i + 1, ty)
  }

  /** Number of consecutive days of type `ty` ending just before index `i`. */
  function RunBefore(t: seq<DayType>, i: nat, ty: DayType): (n: nat)
    requires i <= |t|
    ensures n <= i
  {
    if i == 0 || t[i - 1] != ty then 0 else 1 + RunBefore(t, i - 1, ty)
  }

  /** Length of the run of same-type days that contains index `i`. */
  function RunLength(t: seq<DayType>, i: nat): nat
    requires i < |t|
  {
    RunBefore(t, i, t[i]) + RunFrom(t, i, t[i])
  }

  /** `[lo, hi)` is a maximal run of `ty` days: it cannot be extended on either side. */
  ghost predicate IsMaximalRun(t: seq<DayType>, lo: int, hi: int, ty: DayType)
  {
    && 0 <= lo < hi <= |t|
    && (forall k :: lo <= k < hi ==> t[k] == ty)
    && (lo == 0 || t[lo - 1] != ty)
    && (hi == |t| || t[hi] != ty)
  }

  /** RunFrom counts exactly the `ty` days up to the first different day or the end. */
  lemma {:induction false} RunFromExact(t: seq<DayType>, i: nat, ty: DayType, m: nat)
    requires i + m <= |t|
    requires forall k :: i <= k < i + m ==> t[k] == ty
    requires i + m == |t| || t[i + m] != ty
    ensures RunFrom(t, i, ty) == m
    decreases m
  {
    if m > 0 {
      RunFromExact(t, i + 1, ty, m - 1);
    }
  }

  /** RunBefore counts exactly the `ty` days back to the first different day or the start. */
  lemma {:induction false} RunBeforeExact(t: seq<DayType>, i: nat, ty: DayType, m: nat)
    requires m <= i <= |t|
    requires forall k :: i - m <= k < i ==> t[k] == ty
    requires i - m == 0 || t[i - m - 1] != ty
    ensures RunBefore(t, i, ty) == m
    decreases m
  {
    if m > 0 {
      RunBeforeExact(t, i - 1, ty, m - 1);
    }
  }

  /** The days counted by RunFrom have type `ty` and the day after them does not. */
  lemma {:induction false} RunFromSpan(t: seq<DayType>, i: nat, ty: DayType)
    requires i <= |t|
    ensures forall k :: i <= k < i + RunFrom(t, i, ty) ==> t[k] == ty
    ensures i + RunFrom(t, i, ty) < |t| ==> t[i + RunFrom(t, i, ty)] != ty
    decreases |t| - i
  {
    if i < |t| && t[i] == ty {
      RunFromSpan(t, i + 1, ty);
    }
  }

  /** The days counted by RunBefore have type `ty` and the day before them does not. */
  lemma {:induction false} RunBeforeSpan(t: seq<DayType>, i: nat, ty: DayType)
    requires i <= |t|
    ensures forall k :: i - RunBefore(t, i, ty) <= k < i ==> t[k] == ty
    ensures i - RunBefore(t, i, ty) > 0 ==> t[i - RunBefore(t, i, ty) - 1] != ty
  {
    if i > 0 && t[i - 1] == ty {
      RunBeforeSpan(t, i - 1, ty);
    }
  }

  lemma RunAroundSame(t: seq<DayType>, i: nat)
    requires i < |t|
    ensures forall k :: i - RunBefore(t, i, t[i]) <= k < i + RunFrom(t, i, t[i]) ==> t[k] == t[i]
  {
    RunFromSpan(t, i, t[i]);
    RunBeforeSpan(t, i, t[i]);
  }

  lemma RunAroundEnds(t: seq<DayType>, i: nat)
    requires i < |t|
    ensures i - RunBefore(t, i, t[i]) == 0 || t[i - RunBefore(t, i, t[i]) - 1] != t[i]
    ensures i + RunFrom(t, i, t[i]) == |t| || t[i + RunFrom(t, i, t[i])] != t[i]
    ensures 1 <= RunFrom(t, i, t[i])
  {
    RunFromSpan(t, i, t[i]);
    RunBeforeSpan(t, i, t[i]);
  }

  /** RunLength measures the maximal run around `i`, so it lies in [1, |t|]. */
  lemma RunLengthIsMaximalRun(t: seq<DayType>, i: nat)
    requires i < |t|
    ensures IsMaximalRun(t, i - RunBefore(t, i, t[i]), i + RunFrom(t, i, t[i]), t[i])
    ensures 1 <= RunLength(t, i) <= |t|
  {
    RunAroundSame(t, i);
    RunAroundEnds(t, i);
  }

  /** Any maximal run that contains `i` has length RunLength(t, i). */
  lemma MaximalRunLength(t: seq<DayType>, i: nat, lo: int, hi: int)
    requires i < |t| && lo <= i < hi
    requires IsMaximalRun(t, lo, hi, t[i])
    ensures RunLength(t, i) == hi - lo
  {
    RunFromExact(t, i, t[i], hi - i);
    RunBeforeExact(t, i, t[i], i - lo);
  }

  /** RunFrom only looks to the right, so it is the same on a suffix. */
  lemma {:induction false} RunFromSuffix(t: seq<DayType>, i: nat, j: nat, ty: DayType)
    requires i + j <= |t|
    ensures RunFrom(t, i + j, ty) == RunFrom(t[i..], j, ty)
    decreases |t| - i - j
  {
    if i + j < |t| && t[i + j] == ty {
      RunFromSuffix(t, i, j + 1, ty);
    }
  }

  /**
   * cons_days_number: the length of the maximal run containing `dayIndex`.
   * With an explicit `dayType` that the day does not have, the source's
   * assertion fails.
   */
  method ConsDaysNumber(days: seq<Day>, dayIndex: nat, dayType: Option<DayType>) returns (r: Result<nat>)
    requires dayIndex < |days|
    ensures r.Err? <==> dayType.Some? && days[dayIndex].dayType != dayType.value
    ensures r.Err? ==> r.fault == TypeMismatch
    ensures r.Ok? ==> r.value == RunLength(Types(days), dayIndex)
  {
    var ty := if dayType.None? then days[dayIndex].dayType else dayType.value;
    if days[dayIndex].dayType != ty {
      return Err(TypeMismatch);
    }
    ghost var t := Types(days);
    ghost var left := RunBefore(t, dayIndex, ty);
    ghost var right := RunFrom(t, dayIndex, ty) - 1;
    RunBeforeSpan(t, dayIndex, ty);
    RunFromSpan(t, dayIndex, ty);
    var count := 1;
    var stopLeft := false;
    var stopRight := false;
    for i := 1 to |days|
      invariant count == 1 + (if i - 1 < left then i - 1 else left) + (if i - 1 < right then i - 1 else right)
      invariant stopLeft <==> i - 1 > left && dayIndex - left - 1 >= 0
      invariant stopRight <==> i - 1 > right && dayIndex + right + 1 < |days|
    {
      if dayIndex - i >= 0 && !stopLeft {
        if days[dayIndex - i].dayType == ty {
          count := count + 1;
        } else {
          stopLeft := true;
        }
      }
      if dayIndex + i < |days| && !stopRight {
        if days[dayIndex + i].dayType == ty {
          count := count + 1;
        } else {
          stopRight := true;
        }
      }
    }
    return Ok(count);
  }

  /**
   * Index returned by get_next_available_day on a horizon of two days or
   * more: the first day past the run of `i` in the chosen direction, clamped
   * to the horizon edge.
   */
  function NextBoundary(t: seq<DayType>, i: nat, right: bool): nat
    requires i < |t|
  {
    if right then
      (if i + RunFrom(t, i, t[i]) < |t| then i + RunFrom(t, i, t[i]) else |t| - 1)
    else
      (if i - RunBefore(t, i, t[i]) >= 1 then i - RunBefore(t, i, t[i]) - 1 else 0)
  }

  /**
   * NextBoundary is the first index in the requested direction whose type
   * differs, with every day strictly between of the same type as day `i`;
   * when no such day exists it is the edge index, never out of bounds.
   */
  lemma NextBoundaryIsFirstDifferent(t: seq<DayType>, i: nat, right: bool)
    requires i < |t|
    ensures NextBoundary(t, i, right) < |t|
    ensures right ==> var r := NextBoundary(t, i, right);
      && i <= r
      && (forall k :: i < k < r ==> t[k] == t[i])
      && (t[r] != t[i] || r == |t| - 1)
      && (r == i ==> i == |t| - 1)
    ensures !right ==> var r := NextBoundary(t, i, right);
      && r <= i
      && (forall k :: r < k < i ==> t[k] == t[i])
      && (t[r] != t[i] || r == 0)
      && (r == i ==> i == 0)
  {
    RunFromSpan(t, i, t[i]);
    RunBeforeSpan(t, i, t[i]);
  }

  /**
   * get_next_available_day. With an explicit `dayType` the day does not have,
   * the source's assertion fails; on a one-day horizon its loop never runs
   * and the returned variable is unbound.
   */
  method GetNextAvailableDay(days: seq<Day>, dayIndex: nat, right: bool, dayType: Option<DayType>)
    returns (r: Result<nat>)
    requires dayIndex < |days|
    ensures r.Err? <==> (dayType.Some? && days[dayIndex].dayType != dayType.value) || |days| == 1
    ensures r.Err? ==> r.fault == (if dayType.Some? && days[dayIndex].dayType != dayType.value then TypeMismatch else UnboundIndex)
    ensures r.Ok? ==> r.value == NextBoundary(Types(days), dayIndex, right)
  {
    var ty := if dayType.None? then days[dayIndex].dayType else dayType.value;
    if days[dayIndex].dayType != ty {
      return Err(TypeMismatch);
    }
    ghost var t := Types(days);
    var next: Option<int> := None;
    for i := 1 to |days|
      invariant right ==> dayIndex + (i - 1) < |days| && forall k :: dayIndex <= k <= dayIndex + (i - 1) ==> t[k] == ty
      invariant !right ==> dayIndex - (i - 1) >= 0 && forall k :: dayIndex - (i - 1) <= k <= dayIndex ==> t[k] == ty
      invariant next == if i == 1 then None else Some(if right then dayIndex + (i - 1) else dayIndex - (i - 1))
    {
      next := Some(if right then dayIndex + i else dayIndex - i);
      if next.value < 0 || next.value >= |days| {
        if right {
          RunFromExact(t, dayIndex, ty, i);
        } else {
          RunBeforeExact(t, dayIndex, ty, i - 1);
        }
        return Ok(if right then dayIndex + (i - 1) else dayIndex - (i - 1));
      }
      if days[next.value].dayType != ty {
        if right {
          RunFromExact(t, dayIndex, ty, i);
        } else {
          RunBeforeExact(t, dayIndex, ty, i - 1);
        }
        return Ok(next.value);
      }
    }
    if next.None? {
      return Err(UnboundIndex);
    }
    if right {
      RunFromExact(t, dayIndex, ty, |days| - dayIndex);
    } else {
      RunBeforeExact(t, dayIndex, ty, dayIndex);
    }
    return Ok(next.value);
  }
}
