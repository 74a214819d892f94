/** The reading loop of build_blocks (model.py: Schedule.build_blocks). */
module BlockScan {
  import opened Wrappers
  import opened Days
  import opened Runs
  import opened BlockEncoding

  /** At the first day of a run, the run length is what lies to the right. */
  lemma RunStartsAt(t: seq<DayType>, i: nat)
    requires i < |t| && (i == 0 || t[i - 1] != t[i])
    ensures RunLength(t, i) == RunFrom(t, i, t[i])
  {
  }

  /** Number of WORKING days read at block start `i`. */
  function StepWorking(t: seq<DayType>, i: nat): nat
    requires i <= |t|
  {
    RunFrom(t, i, Working)
  }

  /** Number of OFF days read after them: none when the working run reaches the end. */
  function StepOff(t: seq<DayType>, i: nat): nat
    requires i <= |t|
  {
    var w := RunFrom(t, i, Working);
    if i + w >= |t| then 0 else RunFrom(t, i + w, Off)
  }

  /**
   * The blocks read from day `i` to the end, one step after another: the
   * index form of Blocks, with no slicing.
   */
  function BlocksFrom(t: seq<DayType>, i: nat): seq<Block>
    requires i <= |t|
    decreases |t| - i
  {
    if i == |t| then []
    else
      var w := StepWorking(t, i);
      var o := StepOff(t, i);
      [Block(w, o)] + BlocksFrom(t, i + w + o)
  }

  /** Reading from day `i` gives the encoding of the suffix from `i`. */
  lemma {:induction false} BlocksFromIsBlocks(t: seq<DayType>, i: nat)
    requires i <= |t|
    ensures BlocksFrom(t, i) == Blocks(t[i..])
    decreases |t| - i
  {
    if i == |t| {
      assert t[i..] == [];
    } else {
      var w := StepWorking(t, i);
      var o := StepOff(t, i);
      var n := i + w + o;
      assert BlocksFrom(t, i) == [Block(w, o)] + BlocksFrom(t, n);
      BlocksFromIsBlocks(t, n);
      assert Blocks(t[i..]) == [Block(w, o)] + Blocks(t[n..]) by {
        StepOnSuffix(t, i);
        BlocksUnfold(t[i..]);
        assert t[i..][w + o..] == t[n..];
      }
    }
  }

  /** Both counts of a step are the first block's counts on the suffix from `i`. */
  lemma StepOnSuffix(t: seq<DayType>, i: nat)
    requires i < |t|
    ensures StepWorking(t, i) == RunFrom(t[i..], 0, Working)
    ensures StepOff(t, i) == RunFrom(t[i..], StepWorking(t, i), Off)
  {
    var w := StepWorking(t, i);
    RunFromSuffix(t, i, 0, Working);
    if i + w < |t| {
      RunFromSuffix(t, i, w, Off);
    }
  }

  /**
   * A step from a block start is never empty and ends at the end or at the
   * next OFF-to-WORKING boundary.
   */
  lemma BlockStepAdvances(t: seq<DayType>, i: nat)
    requires i < |t| && BlockStart(t, i)
    ensures var n := i + StepWorking(t, i) + StepOff(t, i);
      && i < n <= |t|
      && (n < |t| ==> BlockStart(t, n))
  {
    var w := StepWorking(t, i);
    RunFromSpan(t, i, Working);
    if i + w < |t| {
      RunFromSpan(t, i + w, Off);
    }
  }

  /** Where build_blocks reads a block: day 0, or a WORKING day after an OFF day. */
  ghost predicate BlockStart(t: seq<DayType>, i: nat)
    requires i < |t|
  {
    i == 0 || (t[i - 1] == Off && t[i] == Working)
  }

  /**
   * One step of build_blocks at block start `i`: the WORKING run from `i`
   * (none when day 0 is OFF), then the OFF run after it (none at the end).
   */
  method ReadBlock(days: seq<Day>, i: nat) returns (nWorking: nat, nOff: nat)
    requires i < |days| && BlockStart(Types(days), i)
    ensures nWorking == StepWorking(Types(days), i) && nOff == StepOff(Types(days), i)
  {
    ghost var t := Types(days);
    if i == 0 && days[0].dayType == Off {
      nWorking := 0;
    } else {
      var r := ConsDaysNumber(days, i, Some(Working));
      nWorking := r.value;
      RunStartsAt(t, i);
    }
    RunFromSpan(t, i, Working);
    if nWorking + i >= |days| {
      nOff := 0;
    } else {
      var r := ConsDaysNumber(days, i + nWorking, Some(Off));
      nOff := r.value;
      RunStartsAt(t, i + nWorking);
    }
  }

  /**
   * The loop of build_blocks: read a block at each block start and jump past
   * it. The blocks it reads are exactly the run-length encoding Blocks.
   */
  method ScanBlocks(days: seq<Day>) returns (blocks: seq<Block>)
    ensures blocks == Blocks(Types(days))
  {
    ghost var t := Types(days);
    blocks := [];
    var i := 0;
    while i < |days|
      invariant 0 <= i <= |t|
      invariant blocks + BlocksFrom(t, i) == BlocksFrom(t, 0)
      invariant i < |t| ==> BlockStart(t, i)
      decreases |t| - i
    {
      var nWorking, nOff := ReadBlock(days, i);
      ghost var n := i + nWorking + nOff;
      BlockStepAdvances(t, i);
      assert BlocksFrom(t, i) == [Block(nWorking, nOff)] + BlocksFrom(t, n);
      AppendAssoc(blocks, [Block(nWorking, nOff)], BlocksFrom(t, n));
      blocks := blocks + [Block(nWorking, nOff)];
      i := i + nWorking + nOff;
    }
    BlocksFromIsBlocks(t, 0);
    assert t[0..] == t;
  }

  lemma AppendAssoc<T>(a: seq<T>, b: seq<T>, c: seq<T>)
    ensures (a + b) + c == a + (b + c)
  {
  }
}
