/** server_side.c: the C server. Its direction is chosen by its own `-r` flag (it never reads
    the client's mode byte). In reverse mode each iteration sends an increasing phase capped at
    `target_bytes`, tolerating partial sends, then a constant phase of `bytes_per_second`-sized
    sends until `phase_time` has passed, and then raises `target_rate` by 20% with truncation
    to `int`. In normal mode it adds up `recv` results until one is 0 or negative. */
module ServerC {
  import opened Common
  import opened Transfer

  // ---------------------------------------------------------------------------------------
  // The increasing phase: `while (total_data_sent < target_bytes)` with `send` results

  /** A `send` of `n` bytes on a socket that will accept `capacity` bytes right now: it
      transfers `min(n, capacity)`, or fails (returns <= 0) when `capacity <= 0`. The sequence
      of capacities is the oracle of one phase; running out of it is a failed send. */
  function Accepted(request: int, capacity: int): (n: int)
    ensures n <= request && n <= capacity
    ensures n == request || n == capacity
  {
    Min(request, capacity)
  }

  /** The chunks the increasing phase transfers once `sent` bytes are out, when the sends it
      attempts meet the capacities `caps`. */
  function RampTrace(target: int, caps: seq<int>, sent: int): (t: seq<nat>)
    ensures |t| <= |caps|
    decreases |caps|
  {
    if sent >= target || caps == [] || caps[0] <= 0 then []
    else
      var c := Accepted(Min(target - sent, BUFFER_SIZE), caps[0]);
      [c] + RampTrace(target, caps[1..], sent + c)
  }

  /** Every transfer is between 1 byte and a buffer, never more than what remains, so the
      phase never sends past `target_bytes`. */
  lemma {:induction false} RampCapped(target: int, caps: seq<int>, sent: int)
    ensures var t := RampTrace(target, caps, sent);
      && (forall j :: 0 <= j < |t| ==> 1 <= t[j] <= BUFFER_SIZE)
      && sent + Sum(t) <= Max(target, sent)
    decreases |caps|
  {
    if !(sent >= target || caps == [] || caps[0] <= 0) {
      var c := Accepted(Min(target - sent, BUFFER_SIZE), caps[0]);
      RampCapped(target, caps[1..], sent + c);
      SumCons(c, RampTrace(target, caps[1..], sent + c));
    }
  }

  /** The phase stops exactly when the target is reached or a send fails: either the total
      reaches `target_bytes`, or the send after the last transfer failed. */
  lemma {:induction false} RampStops(target: int, caps: seq<int>, sent: int)
    ensures var t := RampTrace(target, caps, sent);
      sent + Sum(t) >= target || |t| == |caps| || caps[|t|] <= 0
    decreases |caps|
  {
    if !(sent >= target || caps == [] || caps[0] <= 0) {
      var c := Accepted(Min(target - sent, BUFFER_SIZE), caps[0]);
      RampStops(target, caps[1..], sent + c);
      SumCons(c, RampTrace(target, caps[1..], sent + c));
    }
  }

  /** Against a socket that always accepts a whole buffer, the capped phase is the
      fixed-volume chunker: `min(remaining, BUFFER_SIZE)` until nothing remains. */
  lemma {:induction false} RampWithoutPartialSends(target: int, caps: seq<int>, sent: int)
    requires forall j :: 0 <= j < |caps| ==> caps[j] >= BUFFER_SIZE
    requires |caps| >= |VolumeChunks(target - sent, BUFFER_SIZE)|
    ensures RampTrace(target, caps, sent) == VolumeChunks(target - sent, BUFFER_SIZE)
    decreases |caps|
  {
    if sent < target {
      var c := Min(target - sent, BUFFER_SIZE);
      assert VolumeChunks(target - sent, BUFFER_SIZE) == [c] + VolumeChunks(target - sent - c, BUFFER_SIZE);
      assert target - (sent + c) == target - sent - c;
      RampWithoutPartialSends(target, caps[1..], sent + c);
    }
  }

  /** The increasing phase as the C loop runs it (the double `total_data_sent` holds whole
      byte counts, which it represents exactly at these sizes). */
  method IncreasingPhase(targetBytes: int, caps: seq<int>) returns (trace: seq<nat>, total: int)
    ensures trace == RampTrace(targetBytes, caps, 0)
    ensures total == Sum(trace)
  {
    trace, total := [], 0;
    var k := 0;
    while total < targetBytes
      invariant 0 <= k <= |caps|
      invariant RampSoFar(targetBytes, caps, k, trace, total)
      decreases targetBytes - total
    {
      var remaining := targetBytes - total;
      var chunkSize := if remaining < BUFFER_SIZE then remaining else BUFFER_SIZE;
      if k == |caps| || caps[k] <= 0 {
        break;
      }
      var sentBytes := Accepted(chunkSize, caps[k]);
      RampStepAt(targetBytes, caps, k, trace, total);
      trace, total := trace + [sentBytes], total + sentBytes;
      k := k + 1;
      if total >= targetBytes {
        break;
      }
    }
    RampDone(targetBytes, caps, k, trace, total);
  }

  /** The increasing phase after `k` sends: `trace` went out, `total` bytes in all, and what the
      remaining capacities let through completes the whole phase's trace. */
  ghost predicate RampSoFar(target: int, caps: seq<int>, k: nat, trace: seq<nat>, total: int)
    requires k <= |caps|
  {
    && total >= 0
    && total == Sum(trace)
    && trace + RampTrace(target, caps[k..], total) == RampTrace(target, caps, 0)
  }

  /** One send of the loop at position `k` transfers between 1 byte and the remaining bytes. */
  lemma RampStepAt(target: int, caps: seq<int>, k: nat, trace: seq<nat>, total: int)
    requires k < |caps| && RampSoFar(target, caps, k, trace, total)
    requires total < target && caps[k] > 0
    ensures 1 <= Accepted(Min(target - total, BUFFER_SIZE), caps[k]) <= target - total
    ensures RampSoFar(target, caps, k + 1, trace + [Accepted(Min(target - total, BUFFER_SIZE), caps[k])],
                      total + Accepted(Min(target - total, BUFFER_SIZE), caps[k]))
  {
    var c := Accepted(Min(target - total, BUFFER_SIZE), caps[k]);
    var rest := caps[k..];
    assert rest[0] == caps[k] && rest[1..] == caps[k + 1..];
    var tail := RampTrace(target, caps[k + 1..], total + c);
    assert RampTrace(target, rest, total) == [c] + tail;
    assert trace + ([c] + tail) == (trace + [c]) + tail;
    SumAppend(trace, c);
  }

  /** The loop leaves when the target is reached, the capacities run out or a send fails: the
      trace so far is then the whole phase's trace. */
  lemma RampDone(target: int, caps: seq<int>, k: nat, trace: seq<nat>, total: int)
    requires k <= |caps| && RampSoFar(target, caps, k, trace, total)
    requires total >= target || k == |caps| || caps[k] <= 0
    ensures trace == RampTrace(target, caps, 0)
  {
    if k < |caps| {
      assert caps[k..][0] == caps[k];
    }
    assert RampTrace(target, caps[k..], total) == [];
    assert trace + [] == trace;
  }

  // ---------------------------------------------------------------------------------------
  // The constant phase and the escalation

  /** How many sends of the constant phase succeed: each counted one came before the deadline
      and met a positive capacity, and the next one is past the deadline, fails, or is not
      made; at a rate of 0 none succeeds. */
  function ConstantSends(bytesPerSecond: nat, ticks: seq<real>, phaseTime: real, caps: seq<int>): (n: nat)
    ensures n <= |ticks| && n <= |caps|
    ensures forall j :: 0 <= j < n ==> ticks[j] < phaseTime && caps[j] > 0
    ensures bytesPerSecond > 0 ==> n == |ticks| || ticks[n] >= phaseTime || n == |caps| || caps[n] <= 0
    ensures bytesPerSecond == 0 ==> n == 0
  {
    if bytesPerSecond == 0 then 0 else Min(LeadingBelow(ticks, phaseTime), LeadingPositive(caps))
  }

  /** The constant phase: until `phase_time` has elapsed, send `bytes_per_second` bytes per
      call (the count is not added to any total); a failed send ends the phase, and so does
      the first send at a rate of 0, since a send of 0 bytes returns 0. It makes
      `min(ticks below the deadline, leading successful sends)` calls that succeed. */
  method ConstantPhase(bytesPerSecond: nat, ticks: seq<real>, phaseTime: real, caps: seq<int>)
    returns (requests: seq<nat>)
    ensures requests == Repeat(ConstantSends(bytesPerSecond, ticks, phaseTime, caps), bytesPerSecond)
  {
    requests := [];
    var k := 0;
    while k < |ticks|
      invariant 0 <= k <= |ticks| && k <= |caps|
      invariant forall j :: 0 <= j < k ==> ticks[j] < phaseTime && caps[j] > 0
      invariant k > 0 ==> bytesPerSecond > 0
      invariant requests == Repeat(k, bytesPerSecond)
    {
      if ticks[k] >= phaseTime {
        break;
      }
      if k == |caps| || Accepted(bytesPerSecond, caps[k]) <= 0 {
        break;
      }
      requests := requests + [bytesPerSecond];
      k := k + 1;
    }
    if k < |ticks| && ticks[k] < phaseTime {
      if bytesPerSecond > 0 {
        LeadingPositiveAt(caps, k);
        assert k <= LeadingBelow(ticks, phaseTime);
      }
    } else {
      LeadingBelowAt(ticks, phaseTime, k);
      assert k <= LeadingPositive(caps);
    }
  }

  /** `target_rate = target_rate + (target_rate * 0.2)`, the double converted back to `int`:
      for a non-negative rate it adds a fifth of the rate, rounded down. */
  function Escalate(rate: int): (r: int)
    ensures rate >= 0 ==> r == rate + rate / 5
  {
    if rate >= 0 then FifthAdded(rate); Trunc(rate as real + rate as real * 0.2)
    else Trunc(rate as real + rate as real * 0.2)
  }

  /** Truncating `rate + rate * 0.2` for a non-negative rate. */
  lemma FifthAdded(rate: int)
    requires rate >= 0
    ensures Trunc(rate as real + rate as real * 0.2) == rate + rate / 5
  {
    var q, r := rate / 5, rate % 5;
    assert rate == 5 * q + r && 0 <= r < 5;
    assert rate as real + rate as real * 0.2 == (rate + q) as real + r as real / 5.0;
  }

  /** Rates below 5 Mbps never grow: the added fifth truncates to 0. */
  lemma EscalateStalls(rate: int)
    requires 0 <= rate < 5
    ensures Escalate(rate) == rate
  {
  }

  /** The rate of iteration `i`: the escalation applied `i` times. From a non-negative rate it
      never falls below the initial one, and a rate below 5 Mbps stays where it is. */
  function RateAt(initial: int, i: nat): (r: int)
    ensures initial >= 0 ==> r >= initial
    ensures 0 <= initial < 5 ==> r == initial
  {
    if i == 0 then initial else Escalate(RateAt(initial, i - 1))
  }

  /** The C rate never falls from one iteration to the next. */
  lemma {:induction false} RateNondecreasing(initial: int, i: nat)
    requires initial >= 0
    ensures 0 <= initial <= RateAt(initial, i) <= RateAt(initial, i + 1)
  {
    if i > 0 {
      RateNondecreasing(initial, i - 1);
    }
  }

  /** The escalation compounds: from 25 Mbps the C server uses 25, 30, 36, where a linear
      escalation of a fifth of the base per iteration gives 25, 30, 35. */
  lemma EscalationCompounds()
    ensures RateAt(25, 1) == 30 && RateAt(25, 2) == 36
    ensures 25 + 2 * (25 / 5) == 35
  {
  }

  // ---------------------------------------------------------------------------------------
  // The session

  /** The socket's behaviour during one iteration: the capacities met by the increasing phase's
      sends, and the constant phase's clock readings (relative to its start) and capacities. */
  datatype Oracle = Oracle(rampCaps: seq<int>, constantTicks: seq<real>, constantCaps: seq<int>)

  function OracleAt(oracles: seq<Oracle>, i: nat): Oracle
  {
    if i < |oracles| then oracles[i] else Oracle([], [], [])
  }

  /** One reverse-mode iteration: the rate it used, its `target_bytes`, the increasing phase's
      transfers, the constant phase's requests, and the seconds slept after it (0 for none). */
  datatype IterationResult = IterationResult(rate: int, targetBytes: int, ramp: seq<nat>, total: int, constant: seq<nat>, slept: int)

  /** The rates of the first `n` iterations stay where the C products cannot overflow, and
      are not negative (a negative `bytes_per_second` converted to `size_t` is undefined). */
  predicate RatesInRange(initial: int, n: int)
  {
    initial >= 0 && forall i: nat :: i < n ==> RateAt(initial, i) <= 2047
  }

  /** Iteration `i`, then `if (sleep_duration > 0) sleep(sleep_duration)`. */
  ghost predicate IterationMeets(initial: int, i: nat, phaseTime: int, sleepDuration: int, o: Oracle, r: IterationResult)
  {
    && r.rate == RateAt(initial, i)
    && r.rate >= 0
    && r.targetBytes == r.rate * BUFFER_SIZE
    && r.ramp == RampTrace(r.targetBytes, o.rampCaps, 0)
    && r.total == Sum(r.ramp)
    && r.constant == Repeat(ConstantSends(r.targetBytes, o.constantTicks, phaseTime as real, o.constantCaps), r.targetBytes)
    && r.slept == Max(sleepDuration, 0)
  }

  datatype Outcome = Received(total: int) | Sent(iterations: seq<IterationResult>)

  /** `handle_client`: `iterations` reverse-mode iterations, or the normal-mode receive loop. */
  method HandleClient(reverseMode: bool, iterations: int, sleepDuration: int, phaseTime: int, targetRate: int,
                      results: seq<int>, oracles: seq<Oracle>) returns (outcome: Outcome)
    requires reverseMode ==> RatesInRange(targetRate, iterations)
    ensures !reverseMode ==> outcome == Received(Sum(results[..LeadingPositive(results)]))
    ensures reverseMode ==> outcome.Sent? && |outcome.iterations| == Max(iterations, 0)
    ensures reverseMode ==> forall i :: 0 <= i < |outcome.iterations| ==>
      IterationMeets(targetRate, i, phaseTime, sleepDuration, OracleAt(oracles, i), outcome.iterations[i])
  {
    if !reverseMode {
      var total, _ := ReceiveUntilEof(results);
      return Received(total);
    }
    var rate := targetRate;
    var done: seq<IterationResult> := [];
    var iter := 0;
    while iter < iterations
      invariant 0 <= iter == |done| <= Max(iterations, 0)
      invariant rate == RateAt(targetRate, iter)
      invariant forall j :: 0 <= j < iter ==> IterationMeets(targetRate, j, phaseTime, sleepDuration, OracleAt(oracles, j), done[j])
    {
      var o := OracleAt(oracles, iter);
      RateNondecreasing(targetRate, iter);
      TargetNoOverflow(rate);
      var targetBytes := CTargetBytes(rate);
      var ramp, total := IncreasingPhase(targetBytes, o.rampCaps);
      var bytesPerSecond := CTargetBytes(rate);
      var constant := ConstantPhase(bytesPerSecond, o.constantTicks, phaseTime as real, o.constantCaps);
      var slept := 0;
      if sleepDuration > 0 {
        slept := sleepDuration;
      }
      done := done + [IterationResult(rate, targetBytes, ramp, total, constant, slept)];
      rate := Escalate(rate);
      iter := iter + 1;
    }
    outcome := Sent(done);
  }
}
