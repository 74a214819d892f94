/** Days of a rotation (model.py: DayType, Day). */
module Days {
  import opened Wrappers

  /** DAY_OFF is 0 and WORKING_DAY is 1 in the source. */
  datatype DayType = Off | Working

  /** One calendar slot. `index` and `mutable` never change after construction. */
  datatype Day = Day(dayType: DayType, index: int, mutable: bool)

  /**
   * The guarded `type` setter: a mutable day takes any type, an immutable
   * day only accepts its current type, otherwise the source raises TypeError.
   */
  function SetType(d: Day, value: DayType): (r: Result<Day>)
    ensures r.Ok? <==> d.mutable || d.dayType == value
    ensures r.Ok? ==> r.value.dayType == value && r.value.index == d.index && r.value.mutable == d.mutable
    ensures r.Err? ==> r.fault == ImmutableDay
  {
    if d.mutable || d.dayType == value then Ok(d.(dayType := value)) else Err(ImmutableDay)
  }

  /** An immutable day keeps its type through every accepted assignment. */
  lemma ImmutableDayKeepsType(d: Day, value: DayType)
    requires !d.mutable && SetType(d, value).Ok?
    ensures SetType(d, value).value == d
  {
  }

  /** The type sequence of a rotation: what block building and scoring look at. */
  function Types(days: seq<Day>): (t: seq<DayType>)
    ensures |t| == |days|
    ensures forall k :: 0 <= k < |days| ==> t[k] == days[k].dayType
  {
    seq(|days|, k requires 0 <= k < |days| => days[k].dayType)
  }

  /** Number of working days: `sum(day.type for day in days)` with WORKING_DAY = 1. */
  function CountWorking(t: seq<DayType>): (n: nat)
    ensures n <= |t|
  {
    if t == [] then 0 else (if t[0] == Working then 1 else 0) + CountWorking(t[1..])
  }

  /**
   * What every rotation of the engine satisfies: each day's index is its
   * position, and a day that cannot be changed is a day off (only mandatory
   * days off are created immutable, and they are created OFF).
   */
  ghost predicate WellFormedDays(days: seq<Day>)
  {
    forall k :: 0 <= k < |days| ==> days[k].index == k && (!days[k].mutable ==> days[k].dayType == Off)
  }

  /** On a well-formed rotation, setting a day to OFF never raises. */
  lemma SetOffSucceeds(days: seq<Day>, i: nat)
    requires WellFormedDays(days) && i < |days|
    ensures SetType(days[i], Off).Ok?
  {
  }

  /** The day sequence after day `i` is set to OFF. */
  function FlipOff(days: seq<Day>, i: nat): (r: seq<Day>)
    requires i < |days|
    ensures |r| == |days|
  {
    days[i := days[i].(dayType := Off)]
  }

  /** Setting a day OFF keeps a rotation well formed and never adds a working day. */
  lemma {:induction false} FlipOffWellFormed(days: seq<Day>, i: nat)
    requires WellFormedDays(days) && i < |days|
    ensures WellFormedDays(FlipOff(days, i))
    ensures CountWorking(Types(FlipOff(days, i))) <= CountWorking(Types(days))
  {
    CountWorkingAt(Types(days), i);
    assert Types(FlipOff(days, i)) == Types(days)[i := Off];
  }

  lemma {:induction false} CountWorkingAt(t: seq<DayType>, i: nat)
    requires i < |t|
    ensures CountWorking(t[i := Off]) <= CountWorking(t)
    ensures t[i] == Working ==> CountWorking(t[i := Off]) + 1 == CountWorking(t)
  {
    if i > 0 {
      CountWorkingAt(t[1..], i - 1);
      assert t[i := Off][1..] == t[1..][i - 1 := Off];
    } else {
      assert t[i := Off][1..] == t[1..];
    }
  }
}
