/** server_side_with_sleep_and_constant_rate_start_from_pre_rate.py: the server whose increasing
    phase starts from a carried-over rate. Every ramp send is sized from the current rate
    estimate, which is re-measured after the send; with `--constant_rate` the rate reached is
    held for another `normal_duration` seconds and becomes the next iteration's starting rate. */
module PreRateServer {
  import opened Common
  import opened Transfer
  import opened Mode

  datatype Config = Config(iterations: int, sleep: int, normalDuration: int, constantRate: bool)

  /** One reverse-mode iteration's observations: the ramp's loop-condition clock readings, the
      throughput measured after each ramp send, and the constant phase's clock readings. */
  datatype Oracle = Oracle(rampTicks: seq<real>, rates: seq<real>, constantTicks: seq<real>)

  predicate Measured(rates: seq<real>)
  {
    forall j :: 0 <= j < |rates| ==> rates[j] >= 0.0
  }

  function OracleAt(oracles: seq<Oracle>, i: nat): Oracle
  {
    if i < |oracles| then oracles[i] else Oracle([], [], [])
  }

  /** The rate of the first iteration's ramp: `start_throughput_mbps = 1`. */
  const START_RATE: real := 1.0

  /** The ramp's sends from the current rate `rate` on: each sends the rate's chunk, and the
      throughput measured after it becomes the rate of the next. */
  function RampChunks(rate: real, ticks: seq<real>, rates: seq<real>, limit: real): (t: seq<nat>)
    requires rate >= 0.0 && Measured(rates)
    ensures |t| <= |ticks| && |t| <= |rates|
    ensures forall k :: 0 <= k < |t| ==> t[k] <= BUFFER_SIZE
    decreases |ticks|
  {
    if ticks == [] || ticks[0] >= limit || rates == [] then []
    else [RateChunk(BUFFER_SIZE, rate)] + RampChunks(rates[0], ticks[1..], rates[1..], limit)
  }

  /** `current_rate_mbps` when the ramp ends: the last measurement, or the starting rate. */
  function RampRate(rate: real, ticks: seq<real>, rates: seq<real>, limit: real): (r: real)
    requires rate >= 0.0 && Measured(rates)
    ensures r >= 0.0
    decreases |ticks|
  {
    if ticks == [] || ticks[0] >= limit || rates == [] then rate
    else RampRate(rates[0], ticks[1..], rates[1..], limit)
  }

  /** The ramp runs once per clock reading before the deadline (as far as there are
      measurements), sends `min(BUFFER_SIZE, int(rate * 131072))` for the rate measured after
      the previous send (the starting rate for the first), and ends on the last measurement. */
  lemma {:induction false} RampShape(rate: real, ticks: seq<real>, rates: seq<real>, limit: real)
    requires rate >= 0.0 && Measured(rates)
    ensures var t := RampChunks(rate, ticks, rates, limit);
      && |t| == Min(LeadingBelow(ticks, limit), |rates|)
      && (forall k :: 0 <= k < |t| ==> t[k] == RateChunk(BUFFER_SIZE, if k == 0 then rate else rates[k - 1]))
      && RampRate(rate, ticks, rates, limit) == (if |t| == 0 then rate else rates[|t| - 1])
    decreases |ticks|
  {
    if !(ticks == [] || ticks[0] >= limit || rates == []) {
      var rest := RampChunks(rates[0], ticks[1..], rates[1..], limit);
      RampShape(rates[0], ticks[1..], rates[1..], limit);
      assert RampChunks(rate, ticks, rates, limit) == [RateChunk(BUFFER_SIZE, rate)] + rest;
      forall k | 1 <= k < 1 + |rest|
        ensures ([RateChunk(BUFFER_SIZE, rate)] + rest)[k] == RateChunk(BUFFER_SIZE, rates[k - 1])
      {
        assert rest[k - 1] == RateChunk(BUFFER_SIZE, if k - 1 == 0 then rates[0] else rates[1..][k - 2]);
      }
    }
  }

  /** At the starting rate of 1 Mbps the chunk is exactly one full buffer (131072 bytes). */
  lemma StartChunkIsFullBuffer()
    ensures RateChunk(BUFFER_SIZE, START_RATE) == BUFFER_SIZE
  {
  }

  /** The increasing phase: `while time.time() < increasing_phase_end`, send the current
      rate's chunk, add it to `total_data_sent`, and re-measure the rate. */
  method IncreasingPhase(start: real, ticks: seq<real>, rates: seq<real>, limit: real)
    returns (trace: seq<nat>, total: int, rate: real)
    requires start >= 0.0 && Measured(rates)
    ensures trace == RampChunks(start, ticks, rates, limit)
    ensures total == Sum(trace)
    ensures rate == RampRate(start, ticks, rates, limit)
  {
    trace, total, rate := [], 0, start;
    var k := 0;
    while k < |ticks| && ticks[k] < limit && k < |rates|
      invariant 0 <= k <= |ticks| && k <= |rates|
      invariant RampSoFar(start, ticks, rates, limit, k, trace, total, rate)
    {
      var chunkSize := RateChunk(BUFFER_SIZE, rate);
      RampStepAt(start, ticks, rates, limit, k, trace, total, rate);
      trace, total := trace + [chunkSize], total + chunkSize;
      rate := rates[k];
      k := k + 1;
    }
    RampDone(start, ticks, rates, limit, k, trace, total, rate);
  }

  /** The ramp after `k` sends: `trace` went out, `total` bytes in all, `rate` is the current
      estimate, and what the remaining readings send completes the whole ramp. */
  ghost predicate RampSoFar(start: real, ticks: seq<real>, rates: seq<real>, limit: real, k: nat,
                            trace: seq<nat>, total: int, rate: real)
    requires start >= 0.0 && Measured(rates) && k <= |ticks| && k <= |rates|
  {
    && rate >= 0.0
    && Measured(rates[k..])
    && total == Sum(trace)
    && trace + RampChunks(rate, ticks[k..], rates[k..], limit) == RampChunks(start, ticks, rates, limit)
    && RampRate(rate, ticks[k..], rates[k..], limit) == RampRate(start, ticks, rates, limit)
  }

  /** One send of the ramp at position `k`: the current rate's chunk, then the measured rate. */
  lemma RampStepAt(start: real, ticks: seq<real>, rates: seq<real>, limit: real, k: nat,
                   trace: seq<nat>, total: int, rate: real)
    requires start >= 0.0 && Measured(rates) && k < |ticks| && k < |rates|
    requires RampSoFar(start, ticks, rates, limit, k, trace, total, rate)
    requires ticks[k] < limit
    ensures RampSoFar(start, ticks, rates, limit, k + 1, trace + [RateChunk(BUFFER_SIZE, rate)],
                      total + RateChunk(BUFFER_SIZE, rate), rates[k])
  {
    var c := RateChunk(BUFFER_SIZE, rate);
    var ts, rs := ticks[k..], rates[k..];
    assert ts[0] == ticks[k] && rs[0] == rates[k];
    assert ts[1..] == ticks[k + 1..] && rs[1..] == rates[k + 1..];
    var tail := RampChunks(rates[k], ticks[k + 1..], rates[k + 1..], limit);
    assert RampChunks(rate, ts, rs, limit) == [c] + tail;
    assert trace + ([c] + tail) == (trace + [c]) + tail;
    SumAppend(trace, c);
  }

  /** The ramp leaves at the deadline or when the readings run out: the trace so far is the
      whole ramp and the current rate is the one it ends on. */
  lemma RampDone(start: real, ticks: seq<real>, rates: seq<real>, limit: real, k: nat,
                 trace: seq<nat>, total: int, rate: real)
    requires start >= 0.0 && Measured(rates) && k <= |ticks| && k <= |rates|
    requires RampSoFar(start, ticks, rates, limit, k, trace, total, rate)
    requires !(k < |ticks| && ticks[k] < limit && k < |rates|)
    ensures trace == RampChunks(start, ticks, rates, limit)
    ensures rate == RampRate(start, ticks, rates, limit)
  {
    if k < |ticks| {
      assert ticks[k..][0] == ticks[k];
    }
    assert RampChunks(rate, ticks[k..], rates[k..], limit) == [];
    assert trace + [] == trace;
  }

  /** One reverse-mode iteration: the rate it started from, its ramp and the rate reached, the
      constant phase's sends (`time.sleep(1)` after each; nothing without `--constant_rate`),
      and the seconds slept after the iteration (0 for none). */
  datatype IterationResult = IterationResult(start: real, ramp: seq<nat>, rateAfter: real, constant: seq<nat>, total: int, slept: int)

  /** Iteration as the script runs it from the rate `start`, then
      `if args.sleep: time.sleep(args.sleep)`. */
  ghost predicate IterationMeets(cfg: Config, start: real, o: Oracle, r: IterationResult)
    requires start >= 0.0 && Measured(o.rates)
  {
    && r.start == start
    && r.ramp == RampChunks(start, o.rampTicks, o.rates, cfg.normalDuration as real)
    && r.rateAfter == RampRate(start, o.rampTicks, o.rates, cfg.normalDuration as real)
    && r.constant == (if cfg.constantRate
                      then Repeat(LeadingBelow(o.constantTicks, cfg.normalDuration as real), RateChunk(BUFFER_SIZE, r.rateAfter))
                      else [])
    && r.total == Sum(r.ramp) + Sum(r.constant)
    && r.slept == cfg.sleep
  }

  method RunIteration(cfg: Config, start: real, o: Oracle) returns (r: IterationResult)
    requires start >= 0.0 && Measured(o.rates)
    ensures IterationMeets(cfg, start, o, r)
  {
    var totalDataSent := 0;
    var ramp, sent, currentRate := IncreasingPhase(start, o.rampTicks, o.rates, cfg.normalDuration as real);
    totalDataSent := totalDataSent + sent;
    var constant: seq<nat> := [];
    if cfg.constantRate {
      var constantSent;
      constant, constantSent := SendChunksUntil(o.constantTicks, cfg.normalDuration as real, RateChunk(BUFFER_SIZE, currentRate));
      totalDataSent := totalDataSent + constantSent;
    }
    r := IterationResult(start, ramp, currentRate, constant, totalDataSent, cfg.sleep);
  }

  datatype Outcome = Received(total: int) | Sent(iterations: seq<IterationResult>)

  /** The server after `accept`: `'N'` receives until end of stream, anything else sends;
      `start_throughput_mbps` is carried to the next iteration only under `--constant_rate`. */
  method Serve(cfg: Config, first: Option<char>, results: seq<int>, oracles: seq<Oracle>) returns (outcome: Outcome)
    requires forall i :: 0 <= i < |oracles| ==> Measured(oracles[i].rates)
    ensures LenientDispatch(first) == Receive ==> outcome == Received(Sum(results[..LeadingPositive(results)]))
    ensures LenientDispatch(first) == Send ==> outcome.Sent? && |outcome.iterations| == Max(cfg.iterations, 0)
    ensures outcome.Sent? ==> |outcome.iterations| > 0 ==> outcome.iterations[0].start == START_RATE
    ensures outcome.Sent? ==> forall i :: 0 <= i < |outcome.iterations| - 1 ==>
      outcome.iterations[i + 1].start ==
        (if cfg.constantRate then outcome.iterations[i].rateAfter else outcome.iterations[i].start)
    ensures outcome.Sent? ==> forall i :: 0 <= i < |outcome.iterations| ==>
      outcome.iterations[i].start >= 0.0 &&
      IterationMeets(cfg, outcome.iterations[i].start, OracleAt(oracles, i), outcome.iterations[i])
  {
    if first == Some('N') {
      var total, _ := ReceiveUntilEof(results);
      return Received(total);
    }
    var startThroughput := START_RATE;
    var done: seq<IterationResult> := [];
    var i := 0;
    while i < cfg.iterations
      invariant 0 <= i == |done| <= Max(cfg.iterations, 0)
      invariant startThroughput >= 0.0
      invariant i == 0 ==> startThroughput == START_RATE
      invariant i > 0 ==> startThroughput == (if cfg.constantRate then done[i - 1].rateAfter else done[i - 1].start)
      invariant |done| > 0 ==> done[0].start == START_RATE
      invariant forall j :: 0 <= j < i - 1 ==>
        done[j + 1].start == (if cfg.constantRate then done[j].rateAfter else done[j].start)
      invariant forall j :: 0 <= j < i ==> done[j].start >= 0.0 && IterationMeets(cfg, done[j].start, OracleAt(oracles, j), done[j])
    {
      var r := RunIteration(cfg, startThroughput, OracleAt(oracles, i));
      if cfg.constantRate {
        startThroughput := r.rateAfter;
      }
      done := done + [r];
      i := i + 1;
    }
    outcome := Sent(done);
  }

  /** Without `--constant_rate` nothing is carried over: every iteration starts from 1 Mbps. */
  lemma {:induction false} NoCarryWithoutConstantRate(cfg: Config, its: seq<IterationResult>, i: nat)
    requires |its| > 0 ==> its[0].start == START_RATE
    requires forall j :: 0 <= j < |its| - 1 ==> its[j + 1].start == (if cfg.constantRate then its[j].rateAfter else its[j].start)
    requires !cfg.constantRate
    requires i < |its|
    ensures its[i].start == START_RATE
  {
    if i > 0 {
      NoCarryWithoutConstantRate(cfg, its, i - 1);
    }
  }
}
