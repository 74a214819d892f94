/** Run-length blocks of a rotation (model.py: Block, Schedule.build_blocks). */
module BlockEncoding {
  import opened Days
  import opened Runs

  /** A run of working days immediately followed by a run of days off. */
  datatype Block = Block(workingDays: nat, daysOff: nat)

  function Repeat(ty: DayType, n: nat): (r: seq<DayType>)
    ensures |r| == n && forall k :: 0 <= k < n ==> r[k] == ty
  {
    seq(n, _ => ty)
  }

  /** The day types a block sequence stands for: the inverse of block building. */
  function Expand(bs: seq<Block>): seq<DayType>
  {
    if bs == [] then [] else Repeat(Working, bs[0].workingDays) + Repeat(Off, bs[0].daysOff) + Expand(bs[1..])
  }

  /**
   * The shape build_blocks produces: no empty block, only the first block may
   * have no working days and only the last may have no days off.
   */
  ghost predicate WellFormedBlocks(bs: seq<Block>)
  {
    && (forall k :: 0 <= k < |bs| ==> bs[k].workingDays + bs[k].daysOff > 0)
    && (forall k :: 0 < k < |bs| ==> bs[k].workingDays > 0)
    && (forall k :: 0 <= k < |bs| - 1 ==> bs[k].daysOff > 0)
  }

  /**
   * Run-length encoding of a type sequence, block by block from the left:
   * the leading working run (empty only when the first day is off), then the
   * off run after it (empty only at the end of the horizon).
   */
  function Blocks(t: seq<DayType>): (bs: seq<Block>)
    ensures |bs| == 0 <==> |t| == 0
    decreases |t|
  {
    if t == [] then []
    else
      var w := RunFrom(t, 0, Working);
      var o := RunFrom(t, w, Off);
      [Block(w, o)] + Blocks(t[w + o..])
  }

  /** Total number of days covered by a block sequence. */
  function TotalDays(bs: seq<Block>): nat
  {
    if bs == [] then 0 else bs[0].workingDays + bs[0].daysOff + TotalDays(bs[1..])
  }

  /** Total number of working days in a block sequence. */
  function TotalWorking(bs: seq<Block>): nat
  {
    if bs == [] then 0 else bs[0].workingDays + TotalWorking(bs[1..])
  }

  /** The first block is followed by the blocks of the days after it. */
  lemma BlocksUnfold(t: seq<DayType>)
    requires t != []
    ensures var w := RunFrom(t, 0, Working); var o := RunFrom(t, w, Off);
      Blocks(t) == [Block(w, o)] + Blocks(t[w + o..])
  {
  }

  /** The first block splits a non-empty sequence: its working days, its days off, then the rest. */
  lemma FirstBlockSplit(t: seq<DayType>)
    requires t != []
    ensures var w := RunFrom(t, 0, Working); var o := RunFrom(t, w, Off);
      t == Repeat(Working, w) + Repeat(Off, o) + t[w + o..]
  {
    var w := RunFrom(t, 0, Working);
    var o := RunFrom(t, w, Off);
    RunFromSpan(t, 0, Working);
    RunFromSpan(t, w, Off);
    var a, b, c := t[..w], t[w..w + o], t[w + o..];
    assert a == Repeat(Working, w);
    assert b == Repeat(Off, o);
    assert t == a + b + c;
  }

  /**
   * The first block is not empty, has working days when the first day works,
   * and the rest after it starts with a working day that follows a day off.
   */
  lemma FirstBlockBounds(t: seq<DayType>)
    requires t != []
    ensures var w := RunFrom(t, 0, Working); var o := RunFrom(t, w, Off);
      && w + o > 0
      && (t[0] == Working ==> w > 0)
      && (w + o < |t| ==> o > 0 && t[w + o] == Working)
  {
    var w := RunFrom(t, 0, Working);
    RunFromSpan(t, 0, Working);
    RunFromSpan(t, w, Off);
  }

  /** Blocks are lossless: expanding them gives back the type sequence. */
  lemma {:induction false} ExpandBlocks(t: seq<DayType>)
    ensures Expand(Blocks(t)) == t
    decreases |t|
  {
    if t != [] {
      var w := RunFrom(t, 0, Working);
      var o := RunFrom(t, w, Off);
      var rest := t[w + o..];
      FirstBlockSplit(t);
      BlocksUnfold(t);
      ExpandBlocks(rest);
      var bs := Blocks(t);
      assert bs[0] == Block(w, o) && bs[1..] == Blocks(rest);
    }
  }

  /** Blocks have the well-formed shape; when the first day works, every block does. */
  lemma {:induction false} BlocksShape(t: seq<DayType>)
    ensures WellFormedBlocks(Blocks(t))
    ensures t != [] && t[0] == Working ==> forall k :: 0 <= k < |Blocks(t)| ==> Blocks(t)[k].workingDays > 0
    decreases |t|
  {
    if t != [] {
      var w := RunFrom(t, 0, Working);
      var o := RunFrom(t, w, Off);
      var rest := t[w + o..];
      FirstBlockBounds(t);
      BlocksUnfold(t);
      BlocksShape(rest);
      var bs := Blocks(t);
      assert bs == [Block(w, o)] + Blocks(rest);
      if rest != [] {
        assert rest[0] == t[w + o];
      }
      assert forall k :: 0 < k < |bs| ==> bs[k] == Blocks(rest)[k - 1];
    }
  }

  /** The first block has no working days exactly when the first day is a day off. */
  lemma FirstBlock(t: seq<DayType>)
    requires t != []
    ensures Blocks(t)[0].workingDays == 0 <==> t[0] == Off
  {
  }

  lemma ExpandStartsWorking(bs: seq<Block>)
    requires bs != [] && bs[0].workingDays > 0
    ensures Expand(bs) != [] && Expand(bs)[0] == Working
  {
    assert Expand(bs) == Repeat(Working, bs[0].workingDays) + Repeat(Off, bs[0].daysOff) + Expand(bs[1..]);
  }

  /** The runs at the front of an expansion are those of its first block. */
  lemma ExpandFirstRuns(bs: seq<Block>)
    requires WellFormedBlocks(bs) && bs != []
    ensures var w, o := bs[0].workingDays, bs[0].daysOff; var e := Expand(bs);
      && RunFrom(e, 0, Working) == w
      && RunFrom(e, w, Off) == o
      && e[w + o..] == Expand(bs[1..])
  {
    var w, o := bs[0].workingDays, bs[0].daysOff;
    var tail := Expand(bs[1..]);
    var e := Expand(bs);
    assert e == Repeat(Working, w) + Repeat(Off, o) + tail;
    assert |bs| > 1 ==> tail[0] == Working by {
      if |bs| > 1 {
        ExpandStartsWorking(bs[1..]);
      }
    }
    assert o == 0 ==> |bs| == 1;
    assert forall k :: 0 <= k < w ==> e[k] == Working;
    assert forall k :: w <= k < w + o ==> e[k] == Off;
    RunFromExact(e, 0, Working, w);
    RunFromExact(e, w, Off, o);
    assert e[w + o..] == tail;
  }

  /** On well-formed blocks, building blocks from their expansion gives them back. */
  lemma {:induction false} BlocksOfExpand(bs: seq<Block>)
    requires WellFormedBlocks(bs)
    ensures Blocks(Expand(bs)) == bs
    decreases |bs|
  {
    if bs != [] {
      var e := Expand(bs);
      ExpandFirstRuns(bs);
      assert WellFormedBlocks(bs[1..]);
      BlocksOfExpand(bs[1..]);
      assert e != [] by {
        assert bs[0].workingDays + bs[0].daysOff > 0;
        assert e == Repeat(Working, bs[0].workingDays) + Repeat(Off, bs[0].daysOff) + Expand(bs[1..]);
      }
      BlocksUnfold(e);
    }
  }

  /** Two type sequences have the same blocks exactly when they are equal. */
  lemma BlocksInjective(t1: seq<DayType>, t2: seq<DayType>)
    ensures Blocks(t1) == Blocks(t2) <==> t1 == t2
  {
    if Blocks(t1) == Blocks(t2) {
      ExpandBlocks(t1);
      ExpandBlocks(t2);
    }
  }

  lemma {:induction false} CountWorkingAppend(a: seq<DayType>, b: seq<DayType>)
    ensures CountWorking(a + b) == CountWorking(a) + CountWorking(b)
    decreases |a|
  {
    if a != [] {
      CountWorkingAppend(a[1..], b);
      assert (a + b)[0] == a[0];
      assert (a + b)[1..] == a[1..] + b;
    } else {
      assert a + b == b;
    }
  }

  lemma {:induction false} CountWorkingRepeat(ty: DayType, n: nat)
    ensures CountWorking(Repeat(ty, n)) == if ty == Working then n else 0
    decreases n
  {
    if n > 0 {
      CountWorkingRepeat(ty, n - 1);
      assert Repeat(ty, n)[1..] == Repeat(ty, n - 1);
    }
  }

  /** Expanding blocks yields as many days, and as many working days, as they count. */
  lemma {:induction false} ExpandCounts(bs: seq<Block>)
    ensures |Expand(bs)| == TotalDays(bs)
    ensures CountWorking(Expand(bs)) == TotalWorking(bs)
    decreases |bs|
  {
    if bs != [] {
      ExpandCounts(bs[1..]);
      var w, o := Repeat(Working, bs[0].workingDays), Repeat(Off, bs[0].daysOff);
      CountWorkingAppend(w + o, Expand(bs[1..]));
      CountWorkingAppend(w, o);
      CountWorkingRepeat(Working, bs[0].workingDays);
      CountWorkingRepeat(Off, bs[0].daysOff);
    }
  }

  /**
   * The blocks partition the horizon: their lengths add up to the number of
   * days and their working runs to the number of working days.
   */
  lemma BlocksCover(t: seq<DayType>)
    ensures TotalDays(Blocks(t)) == |t|
    ensures TotalWorking(Blocks(t)) == CountWorking(t)
  {
    ExpandBlocks(t);
    ExpandCounts(Blocks(t));
  }
}
