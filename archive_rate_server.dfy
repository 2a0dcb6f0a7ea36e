/** archive/server_side_with_sleep_and_constant_rate.py: the archived server with a running-max
    increasing phase. Each reverse-mode iteration sends full buffers for `normal_duration`
    seconds while tracking the highest measured throughput, then (with `--constant_rate`) holds
    that maximum for another `normal_duration` seconds; a broken pipe or reset connection ends
    the iteration and every later one. */
module ArchiveRateServer {
  import opened Common
  import opened Transfer
  import opened Mode

  /** `--bytes` and `--time` are parsed by the script but never used, so they are not fields. */
  datatype Config = Config(iterations: int, sleep: int, constantRate: bool, normalDuration: int)

  /** One iteration's observations: the ramp's clock readings and throughput measurements, the
      constant phase's clock readings, and the send (counted from the first of the iteration)
      that raises `BrokenPipeError` or `ConnectionResetError`, if any. */
  datatype Oracle = Oracle(rampTicks: seq<real>, rates: seq<real>, constantTicks: seq<real>, disconnect: Option<nat>)

  function OracleAt(oracles: seq<Oracle>, i: nat): Oracle
  {
    if i < |oracles| then oracles[i] else Oracle([], [], [], None)
  }

  /** One iteration: the ramp's sends and running maxima (`max_throughput_mbps`, reset to 0 at
      the start of every iteration), the constant phase's sends, what was actually sent before
      any disconnect, `total_data_sent`, whether the client disconnected, and the seconds slept
      after the iteration (0 for none). */
  datatype IterationResult = IterationResult(
    ramp: seq<nat>, maxes: seq<real>, maxAfter: real, constant: seq<nat>,
    sent: seq<nat>, total: int, disconnected: bool, slept: int)

  ghost predicate IterationMeets(cfg: Config, o: Oracle, r: IterationResult)
  {
    var n := Min(LeadingBelow(o.rampTicks, cfg.normalDuration as real), |o.rates|);
    && r.ramp == Repeat(n, BUFFER_SIZE)
    && |r.maxes| == n && (forall k :: 0 <= k < n ==> r.maxes[k] == MaxPrefix(o.rates, k + 1))
    && r.maxAfter == MaxPrefix(o.rates, n) && r.maxAfter >= 0.0
    && r.constant == (if cfg.constantRate
                      then Repeat(LeadingBelow(o.constantTicks, cfg.normalDuration as real), RateChunk(BUFFER_SIZE, r.maxAfter))
                      else [])
    && r.sent == Cut(r.ramp + r.constant, o.disconnect)
    && r.disconnected == Interrupted(r.ramp + r.constant, o.disconnect)
    && r.total == Sum(r.sent)
    && r.slept == (if !r.disconnected && cfg.iterations != 0 && cfg.sleep != 0 then cfg.sleep else 0)
  }

  method RunIteration(cfg: Config, o: Oracle) returns (r: IterationResult)
    ensures IterationMeets(cfg, o, r)
    ensures forall i, j :: 0 <= i <= j < |r.maxes| ==> r.maxes[i] <= r.maxes[j]
  {
    var ramp, rampSent, maxes, maxThroughput := RunningMaxRamp(o.rampTicks, cfg.normalDuration as real, o.rates);
    MaxesSorted(o.rates, maxes);
    var constant: seq<nat> := [];
    if cfg.constantRate {
      var bytesPerSecond := maxThroughput * 1024.0 * 1024.0 / 8.0;
      var chunkSize := Min(BUFFER_SIZE, Trunc(bytesPerSecond));
      var constantSent;
      constant, constantSent := SendChunksUntil(o.constantTicks, cfg.normalDuration as real, chunkSize);
    }
    var sent := Cut(ramp + constant, o.disconnect);
    var disconnected := Interrupted(ramp + constant, o.disconnect);
    var slept := 0;
    if !disconnected && cfg.iterations != 0 && cfg.sleep != 0 {
      slept := cfg.sleep;
    }
    r := IterationResult(ramp, maxes, maxThroughput, constant, sent, Sum(sent), disconnected, slept);
  }

  datatype Outcome = Received(total: int) | Sent(iterations: seq<IterationResult>)

  /** The server after `accept`: `'N'` receives until end of stream, anything else runs
      `range(args.iterations or 1)` iterations, leaving the loop at the first disconnect. */
  method Serve(cfg: Config, first: Option<char>, results: seq<int>, oracles: seq<Oracle>) returns (outcome: Outcome)
    ensures LenientDispatch(first) == Receive ==> outcome == Received(Sum(results[..LeadingPositive(results)]))
    ensures LenientDispatch(first) == Send ==> outcome.Sent?
    ensures outcome.Sent? ==>
      var its := outcome.iterations;
      && |its| <= IterationsOrOne(Some(cfg.iterations))
      && (|its| < IterationsOrOne(Some(cfg.iterations)) ==> |its| > 0 && its[|its| - 1].disconnected)
      && (forall i :: 0 <= i < |its| - 1 ==> !its[i].disconnected)
      && (forall i :: 0 <= i < |its| ==> IterationMeets(cfg, OracleAt(oracles, i), its[i]))
  {
    if first == Some('N') {
      var total, _ := ReceiveUntilEof(results);
      return Received(total);
    }
    var count := IterationsOrOne(Some(cfg.iterations));
    var done: seq<IterationResult> := [];
    var i := 0;
    while i < count
      invariant 0 <= i == |done| <= count
      invariant forall j :: 0 <= j < i ==> !done[j].disconnected
      invariant forall j :: 0 <= j < i ==> IterationMeets(cfg, OracleAt(oracles, j), done[j])
    {
      var r := RunIteration(cfg, OracleAt(oracles, i));
      done := done + [r];
      i := i + 1;
      if r.disconnected {
        break;
      }
    }
    outcome := Sent(done);
  }

  /** Without a disconnect, an iteration sends its whole ramp and constant phase. */
  lemma UndisturbedTotal(cfg: Config, o: Oracle, r: IterationResult)
    requires IterationMeets(cfg, o, r) && o.disconnect.None?
    ensures !r.disconnected
    ensures r.total == |r.ramp| * BUFFER_SIZE + |r.constant| * RateChunk(BUFFER_SIZE, r.maxAfter)
  {
    SumConcat(r.ramp, r.constant);
    SumRepeat(|r.ramp|, BUFFER_SIZE);
    if cfg.constantRate {
      SumRepeat(|r.constant|, RateChunk(BUFFER_SIZE, r.maxAfter));
    }
  }
}
