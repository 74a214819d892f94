/** The Schedule object and its move operators (model.py: Schedule). */
module Model {
  import opened Wrappers
  import opened Days
  import opened Runs
  import opened BlockEncoding
  import opened Scoring
  import opened Moves
  import opened BlockScan

  /** Weekday added as the mandatory day off when none is given (constants.py). */
  const DefaultDayOff := 4

  /** The mandatory weekdays after generate_initial_schedule's default rule. */
  function WithDefaultDayOff(minOff: int, daysOff: seq<int>): (r: seq<int>)
    ensures minOff > 0 && |daysOff| == 0 ==> r == [DefaultDayOff]
    ensures !(minOff > 0 && |daysOff| == 0) ==> r == daysOff
  {
    if minOff > 0 && |daysOff| == 0 then daysOff + [DefaultDayOff] else daysOff
  }

  /**
   * Day `i` of the initial rotation: OFF and immutable when `i != 0` and its
   * weekday, counted as `i % 7 + 1`, is mandatory; WORKING and mutable otherwise.
   */
  function InitialDay(i: nat, daysOff: seq<int>): Day
  {
    if i != 0 && (i % 7 + 1) in daysOff then Day(Off, i, false) else Day(Working, i, true)
  }

  /** The initial rotation is well formed. */
  lemma InitialDaysWellFormed(days: seq<Day>, daysOff: seq<int>)
    requires forall k :: 0 <= k < |days| ==> days[k] == InitialDay(k, daysOff)
    ensures WellFormedDays(days)
  {
  }

  /**
   * The builder counts weekdays as `i % 7 + 1` and the scorer as
   * `(i + 1) % 7`; they agree except on the seventh day of each week (7
   * against 0), and day 0 is never set OFF. So the initial rotation misses
   * no mandatory day off when neither weekday 1 nor weekday 0 is mandatory.
   */
  lemma InitialDaysMissNothing(days: seq<Day>, daysOff: seq<int>)
    requires forall k :: 0 <= k < |days| ==> days[k] == InitialDay(k, daysOff)
    requires 1 !in daysOff && 0 !in daysOff
    ensures MissedDaysOff(days, daysOff) == 0
  {
    forall k | 0 <= k < |days|
      ensures !Missed(days[k], daysOff)
    {
      InitialDayNotMissed(k, daysOff);
    }
    MissedDaysOffZero(days, daysOff);
  }

  lemma InitialDayNotMissed(k: nat, daysOff: seq<int>)
    requires 1 !in daysOff && 0 !in daysOff
    ensures !Missed(InitialDay(k, daysOff), daysOff)
  {
    WeekdayShift(k);
  }

  /** The two weekday numberings: `(k + 1) % 7` is `k % 7 + 1` except on the seventh day, where it is 0. */
  lemma WeekdayShift(k: nat)
    ensures k % 7 < 6 ==> (k + 1) % 7 == k % 7 + 1
    ensures k % 7 == 6 ==> (k + 1) % 7 == 0
  {
  }

  /** Day 0 is exempt from the builder, yet the scorer charges it when weekday 1 is mandatory. */
  lemma DayZeroExempt(days: seq<Day>)
    requires 1 <= |days| && forall k :: 0 <= k < |days| ==> days[k] == InitialDay(k, [1])
    ensures days[0] == Day(Working, 0, true) && Missed(days[0], [1])
    ensures MissedDaysOff(days, [1]) >= 1
  {
    MissedDaysOffZero(days, [1]);
  }

  /**
   * `ss` are valid schedules under constraints `c` whose rotations are, in
   * order, the rotations of `spec`.
   */
  ghost predicate Realizes(ss: seq<Schedule>, spec: seq<seq<Day>>, c: Constraints)
    reads ss
  {
    && |ss| == |spec|
    && (forall k :: 0 <= k < |ss| ==> ss[k].days == spec[k])
    && forall k {:trigger ss[k].Valid()} {:trigger ss[k].Params()} :: 0 <= k < |ss| ==> ss[k].Valid() && ss[k].Params() == c
  }

  lemma RealizesAppend(a: seq<Schedule>, sa: seq<seq<Day>>, b: seq<Schedule>, sb: seq<seq<Day>>, c: Constraints)
    requires Realizes(a, sa, c) && Realizes(b, sb, c)
    ensures Realizes(a + b, sa + sb, c)
  {
    forall k | 0 <= k < |a + b|
      ensures (a + b)[k].Valid() && (a + b)[k].Params() == c && (a + b)[k].days == (sa + sb)[k]
    {
      if k < |a| {
        assert (a + b)[k] == a[k] && (sa + sb)[k] == sa[k];
      } else {
        assert (a + b)[k] == b[k - |a|] && (sa + sb)[k] == sb[k - |a|];
      }
    }
  }

  /** Appending the schedules realizing one more target extends the realized moves. */
  lemma RealizesSnoc(c: Constraints, days: seq<Day>, current: nat, tried: seq<int>, target: int,
                     acc: seq<Schedule>, extra: seq<Schedule>)
    requires current < |days|
    requires Realizes(acc, KeepEach(c, days, current, tried), c)
    requires Realizes(extra, InHorizon(c, days, current, target), c)
    ensures Realizes(acc + extra, KeepEach(c, days, current, tried + [target]), c)
  {
    KeepEachSnoc(c, days, current, tried, target);
    RealizesAppend(acc, KeepEach(c, days, current, tried), extra, InHorizon(c, days, current, target), c);
  }

  /** The parameter dictionary the caller passes; `daysOff` is the list the schedule shares. */
  class ScheduleParams {
    const numDays: int
    const maxWorking: int
    const minWorking: int
    const maxOff: int
    const minOff: int
    var daysOff: seq<int>

    constructor (numDays: int, maxWorking: int, minWorking: int, maxOff: int, minOff: int, daysOff: seq<int>)
      ensures this.numDays == numDays && this.maxWorking == maxWorking && this.minWorking == minWorking
      ensures this.maxOff == maxOff && this.minOff == minOff && this.daysOff == daysOff
    {
      this.numDays := numDays;
      this.maxWorking := maxWorking;
      this.minWorking := minWorking;
      this.maxOff := maxOff;
      this.minOff := minOff;
      this.daysOff := daysOff;
    }
  }

  class Schedule {
    const numDays: int
    const maxWorking: int
    const minWorking: int
    const maxOff: int
    const minOff: int
    var daysOff: seq<int>
    var days: seq<Day>
    var blocks: seq<Block>
    var score: ScheduleScore

    function Params(): Constraints
      reads this
    {
      Constraints(numDays, maxWorking, minWorking, maxOff, minOff, daysOff)
    }

    /**
     * A schedule between operations: blocks and score are those of its days.
     * The score is the ScoreOf its days under its own constraints, stated for
     * any constraints equal to those, so that it is brought up only where a
     * score of these days is in question.
     */
    ghost predicate Valid()
      reads this
    {
      && 1 <= numDays == |days|
      && WellFormedDays(days)
      && blocks == Blocks(Types(days))
      && forall k {:trigger ScoreOf(k, days)} :: k == Params() ==> score == ScoreOf(k, days)
    }

    /**
     * The generating constructor: the default day off is appended to the
     * caller's list when min_off > 0 and the list is empty, then the initial
     * rotation is built, its blocks and its score.
     */
    constructor Generate(params: ScheduleParams)
      requires params.numDays >= 1
      modifies params
      ensures params.daysOff == WithDefaultDayOff(params.minOff, old(params.daysOff))
      ensures Params() == Constraints(params.numDays, params.maxWorking, params.minWorking,
        params.maxOff, params.minOff, params.daysOff)
      ensures forall k :: 0 <= k < |days| ==> days[k] == InitialDay(k, daysOff)
      ensures Valid()
    {
      numDays := params.numDays;
      maxWorking := params.maxWorking;
      minWorking := params.minWorking;
      maxOff := params.maxOff;
      minOff := params.minOff;
      daysOff := params.daysOff;
      days := [];
      blocks := [];
      score := ScheduleScore(0, 0);
      new;
      GenerateInitialSchedule();
      params.daysOff := daysOff;
      InitialDaysWellFormed(days, daysOff);
      BuildBlocks();
      Evaluate();
    }

    /** The constructor given explicit days of the right length. */
    constructor WithDays(params: ScheduleParams, given: seq<Day>)
      requires params.numDays == |given| >= 1 && WellFormedDays(given)
      ensures Params() == Constraints(params.numDays, params.maxWorking, params.minWorking,
        params.maxOff, params.minOff, params.daysOff)
      ensures days == given
      ensures Valid()
    {
      numDays := params.numDays;
      maxWorking := params.maxWorking;
      minWorking := params.minWorking;
      maxOff := params.maxOff;
      minOff := params.minOff;
      daysOff := params.daysOff;
      days := given;
      blocks := [];
      score := ScheduleScore(0, 0);
      new;
      UpdateSchedule();
    }

    /** A copy of `other`: the value copy that copy.deepcopy makes. */
    constructor Clone(other: Schedule)
      requires other.Valid()
      ensures Params() == other.Params() && days == other.days
      ensures blocks == other.blocks && score == other.score
      ensures Valid()
    {
      numDays := other.numDays;
      maxWorking := other.maxWorking;
      minWorking := other.minWorking;
      maxOff := other.maxOff;
      minOff := other.minOff;
      daysOff := other.daysOff;
      days := other.days;
      blocks := other.blocks;
      score := other.score;
    }

    /**
     * Schedule(params, days): an empty `given` list means "generate"; a
     * non-empty one must have num_days days. With no day at all the source
     * fails in `evaluate`, reading the last of zero blocks.
     */
    static method Create(params: ScheduleParams, given: seq<Day>) returns (r: Result<Schedule>)
      requires WellFormedDays(given)
      modifies params
      ensures given != [] ==> params.daysOff == old(params.daysOff)
      ensures given == [] ==> params.daysOff == WithDefaultDayOff(params.minOff, old(params.daysOff))
      ensures r.Err? <==> (given == [] && params.numDays < 1) || (given != [] && |given| != params.numDays)
      ensures r.Err? ==> r.fault == (if given == [] then EmptyHorizon else LengthMismatch)
      ensures r.Ok? ==>
        && fresh(r.value) && r.value.Valid()
        && r.value.Params() == Constraints(params.numDays, params.maxWorking, params.minWorking,
          params.maxOff, params.minOff, params.daysOff)
      ensures r.Ok? && given != [] ==> r.value.days == given
      ensures r.Ok? && given == [] ==> forall k :: 0 <= k < params.numDays ==> r.value.days[k] == InitialDay(k, params.daysOff)
    {
      if given != [] {
        if |given| != params.numDays {
          return Err(LengthMismatch);
        }
        var s := new Schedule.WithDays(params, given);
        return Ok(s);
      }
      if params.numDays < 1 {
        params.daysOff := WithDefaultDayOff(params.minOff, params.daysOff);
        return Err(EmptyHorizon);
      }
      var s := new Schedule.Generate(params);
      return Ok(s);
    }

    /** __eq__: same blocks and same bounds and mandatory weekdays; num_days is not compared. */
    predicate Equals(other: Schedule)
      reads this, other
    {
      && blocks == other.blocks
      && maxWorking == other.maxWorking && minWorking == other.minWorking
      && maxOff == other.maxOff && minOff == other.minOff
      && daysOff == other.daysOff
    }

    /**
     * Blocks are lossless, so two valid schedules are equal exactly when
     * their type sequences and all their parameters agree.
     */
    lemma EqualsMeansSameRotation(other: Schedule)
      requires Valid() && other.Valid()
      ensures Equals(other) <==> Types(days) == Types(other.days) && Params() == other.Params()
    {
      BlocksInjective(Types(days), Types(other.days));
    }

    /** working_days_num: the number of WORKING days, which is also the blocks' working total. */
    function WorkingDaysNum(): (n: nat)
      reads this
      ensures n <= |days|
      ensures blocks == Blocks(Types(days)) ==> n == TotalWorking(blocks)
    {
      BlocksCover(Types(days));
      CountWorking(Types(days))
    }

    /** generate_initial_schedule: the default day off, then one day per index. */
    method GenerateInitialSchedule()
      requires days == []
      modifies this`days, this`daysOff
      ensures daysOff == WithDefaultDayOff(minOff, old(daysOff))
      ensures |days| == if numDays > 0 then numDays else 0
      ensures forall k :: 0 <= k < |days| ==> days[k] == InitialDay(k, daysOff)
    {
      if minOff > 0 && |daysOff| == 0 {
        daysOff := daysOff + [DefaultDayOff];
      }
      var i := 0;
      while i < numDays
        invariant 0 <= i <= (if numDays > 0 then numDays else 0) && |days| == i
        invariant daysOff == WithDefaultDayOff(minOff, old(daysOff))
        invariant forall k :: 0 <= k < i ==> days[k] == InitialDay(k, daysOff)
      {
        if i != 0 && (i % 7 + 1) in daysOff {
          days := days + [Day(Off, i, false)];
        } else {
          days := days + [Day(Working, i, true)];
        }
        i := i + 1;
      }
    }

    /** build_blocks: rebuilds `blocks` as the run-length encoding of the days. */
    method BuildBlocks()
      modifies this`blocks
      ensures blocks == Blocks(Types(days))
    {
      blocks := ScanBlocks(days);
    }

    /** eval_days_off: 40 for each WORKING day whose weekday `(index + 1) % 7` is mandatory. */
    method EvalDaysOff() returns (penalty: nat)
      ensures penalty == PenaltyInvalidDayOff * MissedDaysOff(days, daysOff)
    {
      penalty := 0;
      for k := 0 to |days|
        invariant penalty == PenaltyInvalidDayOff * MissedDaysOff(days[..k], daysOff)
      {
        assert days[..k + 1][..k] == days[..k];
        var day := days[k];
        if (day.index + 1) % 7 in daysOff && day.dayType == Working {
          penalty := penalty + PenaltyInvalidDayOff;
        }
      }
      assert days[..|days|] == days;
    }

    /**
     * evaluate: the score from the current blocks and days. Over a rebuilt
     * block list it is the rotation's ScoreOf, so evaluating twice changes nothing.
     */
    method Evaluate()
      requires |blocks| > 0
      modifies this`score
      ensures score == ScheduleScore(
        EvalNumberOfDays(|days|, numDays) + EvalConsecutiveDays(blocks, Params())
          + PenaltyInvalidDayOff * MissedDaysOff(days, daysOff),
        WorkingDaysNum())
      ensures blocks == Blocks(Types(days)) ==> score == ScoreOf(Params(), days)
    {
      var penalty := EvalNumberOfDays(|days|, numDays);
      penalty := penalty + EvalConsecutiveDays(blocks, Params());
      var offPenalty := EvalDaysOff();
      penalty := penalty + offPenalty;
      score := ScheduleScore(penalty, WorkingDaysNum());
    }

    /** update_schedule: rebuild the blocks, then the score. */
    method UpdateSchedule()
      requires |days| >= 1
      modifies this`blocks, this`score
      ensures blocks == Blocks(Types(days))
      ensures score == ScoreOf(Params(), days)
    {
      BuildBlocks();
      Evaluate();
    }

    /**
     * change_day_type: the guarded assignment to one day, then a rebuild. An
     * immutable day asked to change type raises and nothing changes.
     */
    method ChangeDayType(dayIndex: nat, newType: DayType) returns (o: Outcome)
      requires Valid() && dayIndex < |days|
      modifies this`days, this`blocks, this`score
      ensures Valid()
      ensures var update := SetType(old(days[dayIndex]), newType);
        && (update.Ok? ==> o == Pass && days == old(days)[dayIndex := update.value])
        && (update.Err? ==> o == Fail(ImmutableDay) && days == old(days))
    {
      var update := SetType(days[dayIndex], newType);
      if update.Err? {
        return Fail(update.fault);
      }
      days := days[dayIndex := update.value];
      UpdateSchedule();
      return Pass;
    }

    /**
     * create_schedule_new_day_off: a deep copy with day `target` set OFF. The
     * copy is returned only when the run now holding day `current` is at most
     * max_off long and no block but the last is short of min_working.
     */
    method CreateScheduleNewDayOff(current: nat, target: nat) returns (s: Schedule?)
      requires Valid() && current < |days| && target < |days|
      ensures s == null <==> NewDayOff(Params(), days, current, target).None?
      ensures s != null ==>
        && fresh(s) && s.Valid() && s.Params() == Params()
        && s.days == NewDayOff(Params(), days, current, target).value
      ensures InHorizon(Params(), days, current, target) == if s == null then [] else [s.days]
    {
      var attempt := new Schedule.Clone(this);
      SetOffSucceeds(days, target);
      var o := attempt.ChangeDayType(target, Off);
      ghost var t := Types(attempt.days);
      var ncOff := ConsDaysNumber(attempt.days, current, None);
      var invalidWorkingDays := Filter(attempt.blocks[..|attempt.blocks| - 1], ShortWorking(Params()));
      if ncOff.value <= maxOff && |invalidWorkingDays| == 0 {
        assert Accepted(Params(), t, current);
        return attempt;
      }
      assert !Accepted(Params(), t, current);
      return null;
    }

    /** The clone create_schedule_new_day_off keeps, as a list of at most one schedule. */
    method KeptClone(current: nat, target: nat) returns (extra: seq<Schedule>)
      requires Valid() && current < |days| && target < |days|
      ensures Realizes(extra, InHorizon(Params(), days, current, target), Params())
      ensures forall k :: 0 <= k < |extra| ==> fresh(extra[k])
    {
      var s := CreateScheduleNewDayOff(current, target);
      extra := if s == null then [] else [s];
    }

    /**
     * One step of the move operators: try setting `target` OFF and append
     * the clone if it is kept. `tried` lists the targets tried before.
     */
    method AppendNewDayOff(current: nat, target: nat, acc: seq<Schedule>, ghost tried: seq<int>)
      returns (r: seq<Schedule>)
      requires Valid() && current < |days| && target < |days|
      requires Realizes(acc, KeepEach(Params(), days, current, tried), Params())
      ensures Realizes(r, KeepEach(Params(), days, current, tried + [target]), Params())
      ensures forall k :: 0 <= k < |r| ==> r[k] in acc || fresh(r[k])
    {
      var extra := KeptClone(current, target);
      RealizesSnoc(Params(), days, current, tried, target, acc, extra);
      r := acc + extra;
    }

    /** The same step for a day min_working away, taken only inside [0, num_days). */
    method AppendInHorizon(current: nat, newIndex: int, acc: seq<Schedule>, ghost tried: seq<int>)
      returns (r: seq<Schedule>)
      requires Valid() && current < |days|
      requires Realizes(acc, KeepEach(Params(), days, current, tried), Params())
      ensures Realizes(r, KeepEach(Params(), days, current, tried + [newIndex]), Params())
      ensures forall k :: 0 <= k < |r| ==> r[k] in acc || fresh(r[k])
    {
      r := acc;
      if 0 <= newIndex < numDays {
        r := AppendNewDayOff(current, newIndex, acc, tried);
      } else {
        RealizesSnoc(Params(), days, current, tried, newIndex, acc, []);
        assert acc + [] == acc;
      }
    }

    /**
     * create_schedules_new_days_off, for an OFF day whose run is too short:
     * try setting OFF the day the right scan reaches, then the day the left
     * scan reaches. On a one-day horizon the scan result is unbound.
     */
    method CreateSchedulesNewDaysOff(i: nat) returns (r: Result<seq<Schedule>>)
      requires Valid() && i < |days| && days[i].dayType == Off
      ensures r.Err? <==> OffRunMoves(Params(), days, i).Err?
      ensures r.Err? ==> r.fault == UnboundIndex
      ensures r.Ok? ==> Realizes(r.value, OffRunMoves(Params(), days, i).value, Params())
      ensures r.Ok? ==> forall k :: 0 <= k < |r.value| ==> fresh(r.value[k])
    {
      var newSchedules: seq<Schedule> := [];
      var nextDay := GetNextAvailableDay(days, i, true, Some(Off));
      if nextDay.Err? {
        return Err(nextDay.fault);
      }
      newSchedules := AppendNewDayOff(i, nextDay.value, newSchedules, []);
      var previousDay := GetNextAvailableDay(days, i, false, Some(Off));
      newSchedules := AppendNewDayOff(i, previousDay.value, newSchedules, [] + [nextDay.value]);
      OffTargetsInTurn(Types(days), i, nextDay.value, previousDay.value);
      return Ok(newSchedules);
    }

    /**
     * create_schedules_new_days_off_wd, for a WORKING day whose run is too
     * long: try the last and the first working day of the run as the scans
     * find them, then the day min_working before the last and the day
     * min_working after the first, each only inside [0, num_days).
     */
    method CreateSchedulesNewDaysOffWd(i: nat) returns (r: Result<seq<Schedule>>)
      requires Valid() && i < |days| && days[i].dayType == Working
      ensures r.Err? <==> WorkingRunMoves(Params(), days, i).Err?
      ensures r.Err? ==> r.fault == UnboundIndex
      ensures r.Ok? ==> Realizes(r.value, WorkingRunMoves(Params(), days, i).value, Params())
      ensures r.Ok? ==> forall k :: 0 <= k < |r.value| ==> fresh(r.value[k])
    {
      var newSchedules: seq<Schedule> := [];
      var right := GetNextAvailableDay(days, i, true, Some(Working));
      if right.Err? {
        return Err(right.fault);
      }
      var nextDayIndexRight := right.value - 1;
      var left := GetNextAvailableDay(days, i, false, Some(Working));
      var nextDayIndexLeft := left.value + 1;
      newSchedules := TryWorkingTargets(i, nextDayIndexRight, nextDayIndexLeft);
      return Ok(newSchedules);
    }

    /**
     * The tries of create_schedules_new_days_off_wd once the scans have
     * found the last and the first working day of the run.
     */
    method TryWorkingTargets(i: nat, last: nat, first: nat) returns (r: seq<Schedule>)
      requires Valid() && 2 <= |days| && i < |days|
      requires last == LastWorking(Types(days), i) && first == FirstWorking(Types(days), i)
      ensures Realizes(r, KeepEach(Params(), days, i, WorkingTargets(Params(), Types(days), i)), Params())
      ensures forall k :: 0 <= k < |r| ==> fresh(r[k])
    {
      r := AppendNewDayOff(i, last, [], []);
      ghost var tried := [] + [last];
      r := AppendNewDayOff(i, first, r, tried);
      tried := tried + [first];
      var newIndex := last - minWorking;
      r := AppendInHorizon(i, newIndex, r, tried);
      tried := tried + [newIndex];
      var newIndexLeft := first + minWorking;
      r := AppendInHorizon(i, newIndexLeft, r, tried);
      WorkingTargetsInTurn(Params(), Types(days), i, last, first, newIndex, newIndexLeft);
    }
  
    /** The moves find_neighborhood adds for day `k`: the operator its trigger calls, if any. */
    method DayNeighbors(k: nat) returns (r: Result<seq<Schedule>>)
      requires Valid() && k < |days|
      ensures r.Err? <==> DayMoves(Params(), days, k).Err?
      ensures r.Err? ==> r.fault == DayMoves(Params(), days, k).fault
      ensures r.Ok? ==> Realizes(r.value, DayMoves(Params(), days, k).value, Params())
      ensures r.Ok? ==> forall j :: 0 <= j < |r.value| ==> fresh(r.value[j])
    {
      var day := days[k];
      r := Ok([]);
      if day.dayType == Off {
        var ncOff := ConsDaysNumber(days, day.index, Some(Off));
        if ncOff.value < minOff {
          r := CreateSchedulesNewDaysOff(day.index);
        }
      }
      if day.dayType == Working {
        var ncWorking := ConsDaysNumber(days, day.index, Some(Working));
        if ncWorking.value > maxWorking {
          r := CreateSchedulesNewDaysOffWd(day.index);
        }
      }
    }

    /** One pass of find_neighborhood's loop: the moves of day `k` join `neighbors`. */
    method ExtendNeighbors(k: nat, neighbors: seq<Schedule>, ghost spec: seq<seq<Day>>)
      returns (r: Result<seq<Schedule>>, ghost spec': seq<seq<Day>>)
      requires Valid() && k < |days| && NeighborhoodUpTo(Params(), days, k) == Ok(spec)
      requires Realizes(neighbors, spec, Params())
      ensures r.Err? ==> Neighborhood(Params(), days).Err? && r.fault == Neighborhood(Params(), days).fault
      ensures r.Ok? ==> NeighborhoodUpTo(Params(), days, k + 1) == Ok(spec')
      ensures r.Ok? ==> Realizes(r.value, spec', Params())
      ensures r.Ok? ==> |neighbors| <= |r.value| && r.value[..|neighbors|] == neighbors
      ensures r.Ok? ==> forall j :: |neighbors| <= j < |r.value| ==> fresh(r.value[j])
    {
      NeighborhoodNext(Params(), days, k);
      spec' := spec;
      var moves := DayNeighbors(k);
      if moves.Err? {
        NeighborhoodErrPersists(Params(), days, k + 1, |days|);
        return Err(moves.fault), spec';
      }
      spec' := spec + DayMoves(Params(), days, k).value;
      RealizesAppend(neighbors, spec, moves.value, DayMoves(Params(), days, k).value, Params());
      return Ok(neighbors + moves.value), spec';
    }

    /**
     * find_neighborhood: the moves of every day in day order. The error of a
     * move operator (a one-day horizon) ends the scan.
     */
    method FindNeighborhood() returns (r: Result<seq<Schedule>>)
      requires Valid()
      ensures r.Err? <==> Neighborhood(Params(), days).Err?
      ensures r.Err? ==> r.fault == Neighborhood(Params(), days).fault
      ensures r.Ok? ==> Realizes(r.value, Neighborhood(Params(), days).value, Params())
      ensures r.Ok? ==> forall j :: 0 <= j < |r.value| ==> fresh(r.value[j])
    {
      var neighbors: seq<Schedule> := [];
      ghost var spec: seq<seq<Day>> := [];
      for k := 0 to |days|
        invariant NeighborhoodUpTo(Params(), days, k) == Ok(spec)
        invariant Realizes(neighbors, spec, Params())
        invariant forall j :: 0 <= j < |neighbors| ==> fresh(neighbors[j])
      {
        var next;
        next, spec := ExtendNeighbors(k, neighbors, spec);
        if next.Err? {
          return Err(next.fault);
        }
        assert forall j :: 0 <= j < |neighbors| ==> next.value[j] == neighbors[j];
        neighbors := next.value;
      }
      return Ok(neighbors);
    }
  }
}
