/** Violation scoring of a rotation (model.py: ScheduleScore, Schedule.evaluate and its terms). */
module Scoring {
  import opened Days
  import opened BlockEncoding

  const PenaltyNumDaysLower := 4
  const PenaltyNumDaysGreater := 8
  const PenaltyInvalidConsecutiveDays := 50
  const PenaltyInvalidDayOff := 40

  /** The constraint parameters a schedule carries. */
  datatype Constraints = Constraints(
    numDays: int, maxWorking: int, minWorking: int, maxOff: int, minOff: int, daysOff: seq<int>)

  /** ScheduleScore: `bonus` counts working days and `total` is penalty minus bonus. */
  datatype ScheduleScore = ScheduleScore(penalty: int, bonus: int)
  {
    function Total(): int
    {
      penalty - bonus
    }
  }

  /** Strict improvement by (penalty, total): a lower penalty always wins, then a lower total. */
  predicate Better(a: ScheduleScore, b: ScheduleScore)
  {
    a.penalty < b.penalty || (a.penalty == b.penalty && a.Total() < b.Total())
  }

  /**
   * Position `k` is where a left-to-right scan that replaces its choice only
   * on a strict improvement ends: nothing is better than the element at `k`,
   * and every element before it is strictly worse, so the first of equals wins.
   */
  ghost predicate IsFirstBest(scores: seq<ScheduleScore>, k: int)
  {
    && 0 <= k < |scores|
    && (forall j :: 0 <= j < |scores| ==> !Better(scores[j], scores[k]))
    && (forall j :: 0 <= j < k ==> Better(scores[k], scores[j]))
  }

  /** The scan step: a new element replaces the choice exactly when it is strictly better. */
  lemma FirstBestExtend(scores: seq<ScheduleScore>, k: int, x: ScheduleScore)
    requires IsFirstBest(scores, k)
    ensures Better(x, scores[k]) ==> IsFirstBest(scores + [x], |scores|)
    ensures !Better(x, scores[k]) ==> IsFirstBest(scores + [x], k)
  {
    var s := scores + [x];
    assert forall j :: 0 <= j < |scores| ==> s[j] == scores[j];
  }

  /**
   * The scan of find_best_schedule from position `i` on, holding position
   * `k`: it moves to a later position only on a strict improvement.
   */
  function FirstBestFrom(scores: seq<ScheduleScore>, i: nat, k: nat): (r: nat)
    requires k < i <= |scores| && IsFirstBest(scores[..i], k)
    ensures IsFirstBest(scores, r)
    decreases |scores| - i
  {
    if i == |scores| then
      assert scores[..i] == scores;
      k
    else
      FirstBestExtend(scores[..i], k, scores[i]);
      assert scores[..i] + [scores[i]] == scores[..i + 1];
      FirstBestFrom(scores, i + 1, if Better(scores[i], scores[k]) then i else k)
  }

  /** The position find_best_schedule picks: the first one nothing beats. */
  function FirstBest(scores: seq<ScheduleScore>): (k: nat)
    requires |scores| > 0
    ensures IsFirstBest(scores, k)
  {
    assert scores[..1] == [scores[0]];
    FirstBestFrom(scores, 1, 0)
  }

  /** eval_number_of_days: 8 per day over num_days, 4 per day under it. */
  function EvalNumberOfDays(len: int, numDays: int): (p: nat)
    ensures len == numDays ==> p == 0
    ensures len > numDays ==> p == PenaltyNumDaysGreater * (len - numDays)
    ensures len < numDays ==> p == PenaltyNumDaysLower * (numDays - len)
  {
    var difference := if len >= numDays then len - numDays else numDays - len;
    if len > numDays then difference * PenaltyNumDaysGreater else difference * PenaltyNumDaysLower
  }

  /** `filter` over blocks. */
  function Filter(bs: seq<Block>, keep: Block -> bool): (r: seq<Block>)
    ensures |r| <= |bs|
  {
    if bs == [] then []
    else if keep(bs[0]) then [bs[0]] + Filter(bs[1..], keep)
    else Filter(bs[1..], keep)
  }

  /** `sum(map(f, bs))`. */
  function SumOf(bs: seq<Block>, f: Block -> int): int
  {
    if bs == [] then 0 else f(bs[0]) + SumOf(bs[1..], f)
  }

  function InvalidWorking(c: Constraints): Block -> bool
  {
    (b: Block) => c.maxWorking < b.workingDays || b.workingDays < c.minWorking
  }

  function WorkingDifference(c: Constraints): Block -> int
  {
    (b: Block) => if c.maxWorking < b.workingDays then b.workingDays - c.maxWorking else c.minWorking - b.workingDays
  }

  function InvalidOff(c: Constraints): Block -> bool
  {
    (b: Block) => c.maxOff < b.daysOff || b.daysOff < c.minOff
  }

  function OffDifference(c: Constraints): Block -> int
  {
    (b: Block) => if c.maxOff < b.daysOff then b.daysOff - c.maxOff else c.minOff - b.daysOff
  }

  /**
   * eval_consecutive_days: the last block is checked against the upper
   * bounds only; every other block is filtered for a violated bound and its
   * distance to that bound summed; the sum is charged 50 per unit.
   */
  function EvalConsecutiveDays(blocks: seq<Block>, c: Constraints): int
    requires |blocks| > 0
  {
    var last := blocks[|blocks| - 1];
    var penalty :=
      (if last.workingDays > c.maxWorking then last.workingDays - c.maxWorking else 0)
      + (if last.daysOff > c.maxOff then last.daysOff - c.maxOff else 0);
    var toCheck := blocks[..|blocks| - 1];
    var workingPenalties := SumOf(Filter(toCheck, InvalidWorking(c)), WorkingDifference(c));
    var dayOffPenalties := SumOf(Filter(toCheck, InvalidOff(c)), OffDifference(c));
    PenaltyInvalidConsecutiveDays * (workingPenalties + dayOffPenalties + penalty)
  }

  /** Distance from `x` to the interval [lo, hi]; 0 inside it. */
  function Deviation(x: int, lo: int, hi: int): nat
  {
    if hi < x then x - hi else if x < lo then lo - x else 0
  }

  /** Amount by which `x` exceeds `hi`. */
  function Excess(x: int, hi: int): nat
  {
    if hi < x then x - hi else 0
  }

  /** Summed distances of each block's runs to their bounds. */
  function DeviationSum(bs: seq<Block>, c: Constraints): nat
  {
    if bs == [] then 0
    else
      Deviation(bs[0].workingDays, c.minWorking, c.maxWorking)
      + Deviation(bs[0].daysOff, c.minOff, c.maxOff) + DeviationSum(bs[1..], c)
  }

  ghost predicate WithinBounds(b: Block, c: Constraints)
  {
    c.minWorking <= b.workingDays <= c.maxWorking && c.minOff <= b.daysOff <= c.maxOff
  }

  /** The run-length rule: every block within bounds, the last one only within the upper bounds. */
  ghost predicate RunLengthsRespected(blocks: seq<Block>, c: Constraints)
  {
    && (forall k :: 0 <= k < |blocks| - 1 ==> WithinBounds(blocks[k], c))
    && (|blocks| > 0 ==> blocks[|blocks| - 1].workingDays <= c.maxWorking && blocks[|blocks| - 1].daysOff <= c.maxOff)
  }

  lemma {:induction false} PipelineIsDeviationSum(bs: seq<Block>, c: Constraints)
    ensures SumOf(Filter(bs, InvalidWorking(c)), WorkingDifference(c))
      + SumOf(Filter(bs, InvalidOff(c)), OffDifference(c)) == DeviationSum(bs, c)
    decreases |bs|
  {
    if bs != [] {
      PipelineIsDeviationSum(bs[1..], c);
      var b := bs[0];
      if InvalidWorking(c)(b) {
        var r := Filter(bs, InvalidWorking(c));
        assert r == [b] + Filter(bs[1..], InvalidWorking(c));
        assert r[0] == b && r[1..] == Filter(bs[1..], InvalidWorking(c));
      }
      if InvalidOff(c)(b) {
        var r := Filter(bs, InvalidOff(c));
        assert r == [b] + Filter(bs[1..], InvalidOff(c));
        assert r[0] == b && r[1..] == Filter(bs[1..], InvalidOff(c));
      }
    }
  }

  lemma {:induction false} DeviationSumZero(bs: seq<Block>, c: Constraints)
    ensures DeviationSum(bs, c) == 0 <==> forall k :: 0 <= k < |bs| ==> WithinBounds(bs[k], c)
    decreases |bs|
  {
    if bs != [] {
      DeviationSumZero(bs[1..], c);
      assert forall k :: 0 < k < |bs| ==> bs[k] == bs[1..][k - 1];
    }
  }

  /**
   * The run-length term is 50 times the summed distances outside the bounds,
   * with the lenient last block; it is never negative and is zero exactly
   * when the run-length rule is respected.
   */
  lemma ConsecutiveDaysPenalty(blocks: seq<Block>, c: Constraints)
    requires |blocks| > 0
    ensures var last := blocks[|blocks| - 1];
      EvalConsecutiveDays(blocks, c) == PenaltyInvalidConsecutiveDays *
        (DeviationSum(blocks[..|blocks| - 1], c) + Excess(last.workingDays, c.maxWorking) + Excess(last.daysOff, c.maxOff))
    ensures EvalConsecutiveDays(blocks, c) >= 0
    ensures EvalConsecutiveDays(blocks, c) == 0 <==> RunLengthsRespected(blocks, c)
  {
    PipelineIsDeviationSum(blocks[..|blocks| - 1], c);
    DeviationSumZero(blocks[..|blocks| - 1], c);
  }

  /** Working days falling on a mandatory weekday, with the weekday taken as `(index + 1) % 7`. */
  function MissedDaysOff(days: seq<Day>, daysOff: seq<int>): nat
  {
    if days == [] then 0
    else
      var d := days[|days| - 1];
      MissedDaysOff(days[..|days| - 1], daysOff) + (if (d.index + 1) % 7 in daysOff && d.dayType == Working then 1 else 0)
  }

  /** A day missed by the mandatory-day-off rule. */
  ghost predicate Missed(d: Day, daysOff: seq<int>)
  {
    (d.index + 1) % 7 in daysOff && d.dayType == Working
  }

  /** MissedDaysOff is zero exactly when no working day falls on a mandatory weekday. */
  lemma {:induction false} MissedDaysOffZero(days: seq<Day>, daysOff: seq<int>)
    ensures MissedDaysOff(days, daysOff) == 0 <==> forall k :: 0 <= k < |days| ==> !Missed(days[k], daysOff)
    decreases |days|
  {
    if days != [] {
      var init := days[..|days| - 1];
      MissedDaysOffZero(init, daysOff);
      assert forall k :: 0 <= k < |init| ==> init[k] == days[k];
    }
  }

  /** Score of a rotation: the three penalty terms, and the number of working days as bonus. */
  function ScoreOf(c: Constraints, days: seq<Day>): ScheduleScore
    requires |days| > 0
  {
    var t := Types(days);
    ScheduleScore(
      EvalNumberOfDays(|days|, c.numDays) + EvalConsecutiveDays(Blocks(t), c)
        + PenaltyInvalidDayOff * MissedDaysOff(days, c.daysOff),
      CountWorking(t))
  }

  /**
   * The penalty is non-negative; it is zero exactly when the rotation has
   * num_days days, respects the run-length rule and has no working day on a
   * mandatory weekday. The bonus is the working-day count of the blocks.
   */
  lemma ScoreOfMeaning(c: Constraints, days: seq<Day>)
    requires |days| > 0
    ensures ScoreOf(c, days).penalty >= 0
    ensures ScoreOf(c, days).penalty == 0 <==>
      && |days| == c.numDays
      && RunLengthsRespected(Blocks(Types(days)), c)
      && forall k :: 0 <= k < |days| ==> !Missed(days[k], c.daysOff)
    ensures ScoreOf(c, days).bonus == TotalWorking(Blocks(Types(days)))
    ensures ScoreOf(c, days).Total() == ScoreOf(c, days).penalty - CountWorking(Types(days))
  {
    ConsecutiveDaysPenalty(Blocks(Types(days)), c);
    MissedDaysOffZero(days, c.daysOff);
    BlocksCover(Types(days));
  }

  /** A week of working days under max_working = 5 is one block charged 50 * 2, with bonus 7. */
  lemma AllWorkingWeek(c: Constraints, days: seq<Day>)
    requires |days| == 7 && forall k :: 0 <= k < 7 ==> days[k].dayType == Working
    requires c.maxWorking == 5 && c.maxOff >= 0
    ensures Blocks(Types(days)) == [Block(7, 0)]
    ensures EvalConsecutiveDays(Blocks(Types(days)), c) == 100
    ensures ScoreOf(c, days).bonus == 7
  {
    var t := Types(days);
    var bs := [Block(7, 0)];
    assert WellFormedBlocks(bs);
    BlocksOfExpand(bs);
    assert Expand(bs) == Repeat(Working, 7) + Repeat(Off, 0) + Expand(bs[1..]);
    assert Expand(bs) == t;
    BlocksCover(t);
  }
}
