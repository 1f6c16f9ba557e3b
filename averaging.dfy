/** The `avg` accumulator of indexer.go: a sum of magnitudes and a count,
    both float64 in the source and `real` here (no rounding). */
module Averaging {

  /** math.Abs */
  function Abs(x: real): (r: real)
    ensures r >= 0.0 && (r == x || r == -x)
  {
    if x < 0.0 then -x else x
  }

  /** The contents of an `avg`. */
  datatype Acc = Acc(sum: real, num: real) {

    /** The accumulator `Add(b)` leaves behind: the sum grows by |b| and the
        count by one. */
    function Add(b: real): (r: Acc)
      ensures r.sum - sum == Abs(b) && r.num - num == 1.0
    {
      Acc(sum + Abs(b), num + 1.0)
    }

    /** sum / num (float64 division by zero, giving NaN or an infinity, is
        not modelled). */
    function Average(): (r: real)
      requires num != 0.0
      ensures r * num == sum
    {
      sum / num
    }
  }

  const Zero := Acc(0.0, 0.0)

  /** Calls `Add` with each of `bs` in turn. */
  function AddAll(a: Acc, bs: seq<real>): Acc
    decreases |bs|
  {
    if bs == [] then a else AddAll(a, bs[..|bs| - 1]).Add(bs[|bs| - 1])
  }

  /** The sum of the magnitudes of `bs`. */
  function SumAbs(bs: seq<real>): real
    decreases |bs|
  {
    if bs == [] then 0.0 else SumAbs(bs[..|bs| - 1]) + Abs(bs[|bs| - 1])
  }

  /** Folding samples adds the sum of their magnitudes and their number. */
  lemma {:induction false} AddAllAccumulates(a: Acc, bs: seq<real>)
    ensures AddAll(a, bs) == Acc(a.sum + SumAbs(bs), a.num + |bs| as real)
    decreases |bs|
  {
    if bs != [] {
      AddAllAccumulates(a, bs[..|bs| - 1]);
    }
  }

  /** Removing element k from a sequence takes its magnitude off SumAbs. */
  lemma {:induction false} SumAbsRemove(bs: seq<real>, k: nat)
    requires k < |bs|
    ensures SumAbs(bs) == SumAbs(bs[..k] + bs[k + 1..]) + Abs(bs[k])
    decreases |bs|
  {
    var n := |bs|;
    if k < n - 1 {
      var init := bs[..n - 1];
      SumAbsRemove(init, k);
      var rest := bs[..k] + bs[k + 1..];
      assert rest[..|rest| - 1] == init[..k] + init[k + 1..];
      assert rest[|rest| - 1] == bs[n - 1];
    } else {
      assert bs[..k] + bs[k + 1..] == bs[..n - 1];
    }
  }

  /** SumAbs depends only on which samples there are, not on their order. */
  lemma {:induction false} SumAbsPermutation(bs: seq<real>, cs: seq<real>)
    requires multiset(bs) == multiset(cs)
    ensures SumAbs(bs) == SumAbs(cs)
    decreases |bs|
  {
    if bs != [] {
      var n := |bs|;
      var last := bs[n - 1];
      assert last in multiset(cs);
      var k :| 0 <= k < |cs| && cs[k] == last;
      var rest := cs[..k] + cs[k + 1..];
      assert cs == cs[..k] + [cs[k]] + cs[k + 1..];
      assert multiset(cs) == multiset(rest) + multiset{last};
      assert bs == bs[..n - 1] + [last];
      assert multiset(bs) == multiset(bs[..n - 1]) + multiset{last};
      assert multiset(bs[..n - 1]) == multiset(bs) - multiset{last};
      assert multiset(rest) == multiset(cs) - multiset{last};
      SumAbsPermutation(bs[..n - 1], rest);
      SumAbsRemove(cs, k);
    } else {
      assert |cs| == |multiset(cs)| == 0;
    }
  }

  /** The final accumulator does not depend on the order the samples were
      added in. */
  lemma AddAllOrderIndependent(a: Acc, bs: seq<real>, cs: seq<real>)
    requires multiset(bs) == multiset(cs)
    ensures AddAll(a, bs) == AddAll(a, cs)
  {
    AddAllAccumulates(a, bs);
    AddAllAccumulates(a, cs);
    SumAbsPermutation(bs, cs);
  }

  /** The sign of a sample is ignored by `Add`. */
  lemma {:induction false} AddAllSignInsensitive(a: Acc, bs: seq<real>, cs: seq<real>)
    requires |bs| == |cs|
    requires forall i | 0 <= i < |bs| :: cs[i] == -bs[i]
    ensures AddAll(a, bs) == AddAll(a, cs)
    decreases |bs|
  {
    if bs != [] {
      AddAllSignInsensitive(a, bs[..|bs| - 1], cs[..|cs| - 1]);
    }
  }

  /** Adding one more sample is one more `Add`. */
  lemma AddAllSnoc(a: Acc, bs: seq<real>, b: real)
    ensures AddAll(a, bs + [b]) == AddAll(a, bs).Add(b)
  {
    assert (bs + [b])[..|bs|] == bs;
  }

  /** The magnitudes of two runs of samples add up. */
  lemma {:induction false} SumAbsAppend(bs: seq<real>, cs: seq<real>)
    ensures SumAbs(bs + cs) == SumAbs(bs) + SumAbs(cs)
    decreases |cs|
  {
    if cs == [] {
      assert bs + cs == bs;
    } else {
      var n := |cs|;
      SumAbsAppend(bs, cs[..n - 1]);
      assert (bs + cs)[..|bs + cs| - 1] == bs + cs[..n - 1];
    }
  }

  /** From a zero accumulator, 1,2,3,4 and -1,-2,-3,-4 both give
      {sum: 10, num: 4}; 2,4,8,10 and -2,-4,-8,-10 both average 6. */
  lemma AddAllExamples()
    ensures AddAll(Zero, [1.0, 2.0, 3.0, 4.0]) == Acc(10.0, 4.0)
    ensures AddAll(Zero, [-1.0, -2.0, -3.0, -4.0]) == Acc(10.0, 4.0)
    ensures var a := AddAll(Zero, [2.0, 4.0, 8.0, 10.0]); a.num != 0.0 && a.Average() == 6.0
    ensures var a := AddAll(Zero, [-2.0, -4.0, -8.0, -10.0]); a.num != 0.0 && a.Average() == 6.0
  {
    Unroll4(1.0, 2.0, 3.0, 4.0);
    Unroll4(-1.0, -2.0, -3.0, -4.0);
    Unroll4(2.0, 4.0, 8.0, 10.0);
    Unroll4(-2.0, -4.0, -8.0, -10.0);
  }

  /** Four `Add` calls on a zero accumulator, spelled out. */
  lemma Unroll4(w: real, x: real, y: real, z: real)
    ensures AddAll(Zero, [w, x, y, z]) == Zero.Add(w).Add(x).Add(y).Add(z)
  {
    AddAllSnoc(Zero, [], w);
    assert [] + [w] == [w];
    AddAllSnoc(Zero, [w], x);
    assert [w] + [x] == [w, x];
    AddAllSnoc(Zero, [w, x], y);
    assert [w, x] + [y] == [w, x, y];
    AddAllSnoc(Zero, [w, x, y], z);
    assert [w, x, y] + [z] == [w, x, y, z];
  }

  /** An `avg` object; `Add` updates it in place and returns it. */
  class Avg {
    var sum: real
    var num: real

    /** The composite literal `&avg{num: num, sum: sum}`. */
    constructor (sum: real, num: real)
      ensures this.sum == sum && this.num == num
    {
      this.sum := sum;
      this.num := num;
    }

    /** The accumulator this object holds. */
    function Value(): Acc
      reads this
    {
      Acc(sum, num)
    }

    /** Folds in |b| and counts it; returns the receiver itself. */
    method Add(b: real) returns (r: Avg)
      modifies this
      ensures r == this
      ensures sum == old(sum) + Abs(b) && num == old(num) + 1.0
      ensures Value() == old(Value()).Add(b)
    {
      sum := sum + Abs(b);
      num := num + 1.0;
      r := this;
    }

    /** sum / num. */
    function Average(): (r: real)
      reads this
      requires num != 0.0
      ensures r * num == sum
      ensures r == Value().Average()
    {
      sum / num
    }
  }
}
