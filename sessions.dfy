/** The reverse-mode iteration loop of the archived clients: each iteration runs one timed
    receive phase and adds what it read to a `total_data_received` that is set to 0 once,
    before the first iteration, and never reset; a keyboard interrupt leaves the loop. */
module Sessions {
  import opened Common
  import opened Transfer

  function ReceiveOracleAt(oracles: seq<ReceiveOracle>, i: nat): ReceiveOracle
  {
    if i < |oracles| then oracles[i] else ReceiveOracle([], [], [], None)
  }

  /** One reverse iteration: what its receive loop did, the running total after it, and the
      seconds slept after it (0 for none). */
  datatype ReceiveIteration = ReceiveIteration(receipt: Receipt, totalAfter: int, slept: int)

  /** The running total when iteration `i` starts: 0 before the first. */
  function TotalBefore(its: seq<ReceiveIteration>, i: nat): int
    requires i <= |its|
  {
    if i == 0 then 0 else its[i - 1].totalAfter
  }

  /** Each iteration adds the bytes it read to the total carried in from the one before. */
  ghost predicate Accumulates(its: seq<ReceiveIteration>)
  {
    forall i {:trigger TotalBefore(its, i)} :: 0 <= i < |its| ==>
      its[i].totalAfter == TotalBefore(its, i) + its[i].receipt.amount
  }

  /** The bytes each iteration read. */
  function Amounts(its: seq<ReceiveIteration>): (a: seq<int>)
    ensures |a| == |its|
    ensures forall k :: 0 <= k < |its| ==> a[k] == its[k].receipt.amount
  {
    if its == [] then [] else Amounts(its[..|its| - 1]) + [its[|its| - 1].receipt.amount]
  }

  /** An accumulating loop's total after iteration k is everything read in iterations 0..k. */
  lemma {:induction false} CumulativeTotal(its: seq<ReceiveIteration>, k: nat)
    requires Accumulates(its)
    requires k < |its|
    ensures its[k].totalAfter == Sum(Amounts(its[..k + 1]))
  {
    assert its[k].totalAfter == TotalBefore(its, k) + its[k].receipt.amount;
    if k == 0 {
      assert Amounts(its[..1]) == Amounts([]) + [its[0].receipt.amount];
    } else {
      CumulativeTotal(its, k - 1);
      assert its[..k + 1][..k] == its[..k];
      assert Amounts(its[..k + 1]) == Amounts(its[..k]) + [its[k].receipt.amount];
      SumAppend(Amounts(its[..k]), its[k].receipt.amount);
    }
  }

  function ReceiveFlags(its: seq<ReceiveIteration>): (f: seq<bool>)
    ensures |f| == |its| && forall i :: 0 <= i < |its| ==> f[i] == its[i].receipt.interrupted
  {
    seq(|its|, i requires 0 <= i < |its| => its[i].receipt.interrupted)
  }

  /** One iteration as the loop runs it: a timed receive on its oracle, then the sleep unless
      it was interrupted. */
  ghost predicate IterationOk(o: ReceiveOracle, deadline: Option<real>, pause: int, it: ReceiveIteration)
  {
    && ReceiptOf(o, deadline, it.receipt)
    && it.slept == (if it.receipt.interrupted then 0 else pause)
  }

  /** Appending an iteration that starts from the running total keeps the total accumulating
      and leaves the earlier iterations as they were. */
  lemma Extend(prev: seq<ReceiveIteration>, r: ReceiveIteration, oracles: seq<ReceiveOracle>, deadline: Option<real>, pause: int)
    requires Accumulates(prev)
    requires forall j :: 0 <= j < |prev| ==> IterationOk(ReceiveOracleAt(oracles, j), deadline, pause, prev[j])
    requires r.totalAfter == TotalBefore(prev, |prev|) + r.receipt.amount
    requires IterationOk(ReceiveOracleAt(oracles, |prev|), deadline, pause, r)
    ensures Accumulates(prev + [r])
    ensures forall j :: 0 <= j < |prev| + 1 ==> IterationOk(ReceiveOracleAt(oracles, j), deadline, pause, (prev + [r])[j])
  {
    var its := prev + [r];
    assert forall j {:trigger TotalBefore(its, j)} :: 0 <= j <= |prev| ==>
      TotalBefore(its, j) == TotalBefore(prev, j) && (j < |prev| ==> its[j] == prev[j]);
  }

  /** `for i in range(count)`: a timed receive with deadline `deadline` per iteration into the
      shared total, then `time.sleep(pause)` unless interrupted (0 is no sleep). */
  method CumulativeReceive(count: nat, deadline: Option<real>, pause: int, oracles: seq<ReceiveOracle>)
    returns (its: seq<ReceiveIteration>)
    ensures StopsAtInterrupt(count, ReceiveFlags(its))
    ensures Accumulates(its)
    ensures forall i :: 0 <= i < |its| ==>
      && ReceiptOf(ReceiveOracleAt(oracles, i), deadline, its[i].receipt)
      && its[i].slept == (if its[i].receipt.interrupted then 0 else pause)
  {
    var totalDataReceived := 0;
    its := [];
    var i := 0;
    while i < count
      invariant 0 <= i == |its| <= count
      invariant totalDataReceived == TotalBefore(its, i)
      invariant Accumulates(its)
      invariant forall j :: 0 <= j < i ==> !its[j].receipt.interrupted
      invariant forall j :: 0 <= j < i ==> IterationOk(ReceiveOracleAt(oracles, j), deadline, pause, its[j])
    {
      var receipt := TimedReceive(ReceiveOracleAt(oracles, i), deadline);
      var slept := if receipt.interrupted then 0 else pause;
      var r := ReceiveIteration(receipt, totalDataReceived + receipt.amount, slept);
      Extend(its, r, oracles, deadline, pause);
      its := its + [r];
      totalDataReceived := r.totalAfter;
      i := i + 1;
      if receipt.interrupted {
        break;
      }
    }
  }
}
