/** advanced_client.py: the client of the validating server. In reverse mode it receives until
    end of stream; in normal mode each iteration sends an increasing phase (until the measured
    rate reaches the target, or for a fixed time) followed by a constant-rate phase, or a plain
    fixed-volume or timed transfer. The measured rate `max_throughput_mbps` is one variable for
    the whole run, so it carries over from one iteration to the next. */
module AdvancedClient {
  import opened Common
  import opened Transfer
  import opened Mode

  datatype Config = Config(
    reverse: bool,
    iterations: int,
    sleep: int,
    constantRate: bool,
    phaseTime: int,
    targetRate: Option<int>,
    rateBasedPhase: bool,
    timeBasedPhase: Option<int>,
    bytes: Option<int>,
    time: Option<int>,
    bufferSize: nat)

  /** `args.rate_based_phase and args.target_rate` */
  predicate RateBased(cfg: Config)
  {
    cfg.rateBasedPhase && Truthy(cfg.targetRate)
  }

  /** What an iteration of the normal mode observes: the throughput measured after each send of
      the rate ramp (`total_data_sent * 8 / 2^20 / elapsed`, never negative), and the clock
      readings of the time-based ramp, the constant phase and the timed transfer, each relative
      to the moment its deadline was set. */
  datatype Oracle = Oracle(rates: seq<real>, rampTicks: seq<real>, constantTicks: seq<real>, timedTicks: seq<real>)

  predicate Measured(rates: seq<real>)
  {
    forall j :: 0 <= j < |rates| ==> rates[j] >= 0.0
  }

  function OracleAt(oracles: seq<Oracle>, i: nat): Oracle
  {
    if i < |oracles| then oracles[i] else Oracle([], [], [], [])
  }

  // ---------------------------------------------------------------------------------------
  // The rate ramp: `while max_throughput_mbps < target_rate: sendall(DATA); ...; max = measured`

  /** How many full buffers the rate ramp sends when it starts from the carried rate `carried`
      and then measures `rates`: none if the carried rate already meets the target, else up to
      and including the first measurement that meets it. */
  function RampSends(carried: real, rates: seq<real>, target: real): (n: nat)
    ensures n <= |rates|
  {
    if carried >= target then 0 else Min(LeadingBelow(rates, target) + 1, |rates|)
  }

  /** `max_throughput_mbps` after `n` ramp sends: the last measurement, or the carried value. */
  function RateAfter(carried: real, rates: seq<real>, n: nat): real
    requires n <= |rates|
  {
    if n == 0 then carried else rates[n - 1]
  }

  /** The ramp leaves only once the rate meets the target (unless the measurements run out),
      and every measurement before the last was still below the target. */
  lemma RampExit(carried: real, rates: seq<real>, target: real)
    ensures var n := RampSends(carried, rates, target);
      && (LeadingBelow(rates, target) < |rates| || carried >= target ==> RateAfter(carried, rates, n) >= target)
      && (forall j :: 0 <= j < n - 1 ==> rates[j] < target)
      && (n > 0 ==> carried < target)
  {
  }

  /** The carried rate already meeting the target makes the ramp send nothing and keeps it. */
  lemma RampCarryOver(carried: real, rates: seq<real>, target: real)
    requires carried >= target
    ensures RampSends(carried, rates, target) == 0
    ensures RateAfter(carried, rates, 0) == carried
  {
  }

  /** The rate ramp: full buffers until the measured rate reaches the target. */
  method RampUntilRate(carried: real, rates: seq<real>, target: real, buf: nat)
    returns (trace: seq<nat>, total: int, rate: real)
    ensures trace == Repeat(RampSends(carried, rates, target), buf)
    ensures total == Sum(trace) == |trace| * buf
    ensures rate == RateAfter(carried, rates, |trace|)
  {
    trace, total, rate := [], 0, carried;
    var k := 0;
    while rate < target && k < |rates|
      invariant 0 <= k <= |rates|
      invariant trace == Repeat(k, buf) && total == k * buf
      invariant rate == RateAfter(carried, rates, k)
      invariant k > 0 ==> carried < target
      invariant forall j :: 0 <= j < k - 1 ==> rates[j] < target
      decreases |rates| - k
    {
      trace, total := trace + [buf], total + buf;
      rate := rates[k];
      k := k + 1;
    }
    if k > 0 {
      if rate >= target {
        LeadingBelowAt(rates, target, k - 1);
      } else {
        LeadingBelowAt(rates, target, k);
      }
    }
    SumRepeat(k, buf);
  }

  // ---------------------------------------------------------------------------------------
  // Iterations

  /** What one normal-mode iteration sent, `max_throughput_mbps` when it ended, and the
      seconds slept after it (0 for none). */
  datatype IterationResult = IterationResult(increasing: seq<nat>, constant: seq<nat>, total: int, rateAfter: real, slept: int)

  /** Iteration as the script runs it from the carried rate `carried` (`total_data_sent` starts
      at 0), then `if args.sleep: time.sleep(args.sleep)`. */
  ghost predicate IterationMeets(cfg: Config, carried: real, o: Oracle, r: IterationResult)
    requires cfg.bufferSize > 0
  {
    && r.total == Sum(r.increasing) + Sum(r.constant)
    && r.slept == cfg.sleep
    && r.rateAfter >= 0.0
    && if cfg.constantRate then
         && (if RateBased(cfg) then
               var n := RampSends(carried, o.rates, cfg.targetRate.value as real);
               r.increasing == Repeat(n, cfg.bufferSize) && r.rateAfter == RateAfter(carried, o.rates, n)
             else
               && r.rateAfter == carried
               && r.increasing == (if Truthy(cfg.timeBasedPhase)
                                   then Repeat(LeadingBelow(o.rampTicks, cfg.timeBasedPhase.value as real), cfg.bufferSize)
                                   else []))
         && r.constant == Repeat(LeadingBelow(o.constantTicks, cfg.phaseTime as real), RateChunk(cfg.bufferSize, r.rateAfter))
       else
         && r.constant == [] && r.rateAfter == carried
         && r.increasing == (if Truthy(cfg.bytes) then VolumeChunks(cfg.bytes.value, cfg.bufferSize)
                             else if Truthy(cfg.time) then Repeat(LeadingBelow(o.timedTicks, cfg.time.value as real), cfg.bufferSize)
                             else [])
  }

  /** The increasing phase under `--constant_rate`. */
  method IncreasingPhase(cfg: Config, carried: real, o: Oracle) returns (trace: seq<nat>, sent: int, rate: real)
    requires cfg.bufferSize > 0 && cfg.constantRate
    requires carried >= 0.0 && Measured(o.rates)
    ensures sent == Sum(trace) && rate >= 0.0
    ensures RateBased(cfg) ==>
      var n := RampSends(carried, o.rates, cfg.targetRate.value as real);
      trace == Repeat(n, cfg.bufferSize) && rate == RateAfter(carried, o.rates, n)
    ensures !RateBased(cfg) ==>
      && rate == carried
      && trace == (if Truthy(cfg.timeBasedPhase)
                   then Repeat(LeadingBelow(o.rampTicks, cfg.timeBasedPhase.value as real), cfg.bufferSize)
                   else [])
  {
    trace, sent, rate := [], 0, carried;
    if RateBased(cfg) {
      trace, sent, rate := RampUntilRate(carried, o.rates, cfg.targetRate.value as real, cfg.bufferSize);
    } else if Truthy(cfg.timeBasedPhase) {
      trace, sent := SendChunksUntil(o.rampTicks, cfg.timeBasedPhase.value as real, cfg.bufferSize);
    }
  }

  /** One normal-mode iteration: `total_data_sent = 0`, then the phases the flags select. */
  method RunIteration(cfg: Config, carried: real, o: Oracle) returns (r: IterationResult)
    requires cfg.bufferSize > 0
    requires carried >= 0.0 && Measured(o.rates)
    ensures IterationMeets(cfg, carried, o, r)
  {
    var totalDataSent := 0;
    if cfg.constantRate {
      var increasing, sent, rate := IncreasingPhase(cfg, carried, o);
      totalDataSent := totalDataSent + sent;
      var chunkSize := RateChunk(cfg.bufferSize, rate);
      var constant, constantSent := SendChunksUntil(o.constantTicks, cfg.phaseTime as real, chunkSize);
      totalDataSent := totalDataSent + constantSent;
      r := IterationResult(increasing, constant, totalDataSent, rate, cfg.sleep);
    } else {
      var trace: seq<nat> := [];
      if Truthy(cfg.bytes) {
        var sent;
        trace, sent := SendFixedVolume(cfg.bytes.value, cfg.bufferSize);
        totalDataSent := totalDataSent + sent;
      } else if Truthy(cfg.time) {
        var sent;
        trace, sent := SendChunksUntil(o.timedTicks, cfg.time.value as real, cfg.bufferSize);
        totalDataSent := totalDataSent + sent;
      }
      r := IterationResult(trace, [], totalDataSent, carried, cfg.sleep);
    }
  }

  /** The rate iteration `i` starts from: 0 before the first, then whatever the previous one left. */
  function CarriedBefore(its: seq<IterationResult>, i: nat): real
    requires i <= |its|
  {
    if i == 0 then 0.0 else its[i - 1].rateAfter
  }

  /** Appending the iteration that ran from the rate the last one left keeps every earlier
      iteration's carried rate. */
  lemma Extend(cfg: Config, done: seq<IterationResult>, r: IterationResult, oracles: seq<Oracle>)
    requires cfg.bufferSize > 0
    requires forall j :: 0 <= j < |done| ==> IterationMeets(cfg, CarriedBefore(done, j), OracleAt(oracles, j), done[j])
    requires IterationMeets(cfg, CarriedBefore(done, |done|), OracleAt(oracles, |done|), r)
    ensures forall j :: 0 <= j < |done| + 1 ==>
      IterationMeets(cfg, CarriedBefore(done + [r], j), OracleAt(oracles, j), (done + [r])[j])
  {
    forall j | 0 <= j < |done|
      ensures IterationMeets(cfg, CarriedBefore(done + [r], j), OracleAt(oracles, j), (done + [r])[j])
    {
      ExtendAt(cfg, done, r, oracles, j);
    }
    ExtendLast(cfg, done, r, oracles);
  }

  /** The appended iteration ran from the rate the last one left. */
  lemma ExtendLast(cfg: Config, done: seq<IterationResult>, r: IterationResult, oracles: seq<Oracle>)
    requires cfg.bufferSize > 0
    requires IterationMeets(cfg, CarriedBefore(done, |done|), OracleAt(oracles, |done|), r)
    ensures IterationMeets(cfg, CarriedBefore(done + [r], |done|), OracleAt(oracles, |done|), (done + [r])[|done|])
  {
    assert (done + [r])[|done|] == r;
    assert CarriedBefore(done + [r], |done|) == CarriedBefore(done, |done|);
  }

  /** One earlier iteration keeps its carried rate when another is appended. */
  lemma ExtendAt(cfg: Config, done: seq<IterationResult>, r: IterationResult, oracles: seq<Oracle>, j: nat)
    requires cfg.bufferSize > 0 && j < |done|
    requires IterationMeets(cfg, CarriedBefore(done, j), OracleAt(oracles, j), done[j])
    ensures IterationMeets(cfg, CarriedBefore(done + [r], j), OracleAt(oracles, j), (done + [r])[j])
  {
    assert (done + [r])[j] == done[j];
    assert CarriedBefore(done + [r], j) == CarriedBefore(done, j);
  }

  /** How a run of the client ends. */
  datatype Outcome = ReverseReceived(total: int) | NormalSent(iterations: seq<IterationResult>)

  /** The client after `connect`: the mode byte, then the reverse receive loop or the iterations. */
  method RunClient(cfg: Config, results: seq<int>, oracles: seq<Oracle>) returns (mode: seq<char>, outcome: Outcome)
    requires cfg.bufferSize > 0
    requires forall i :: 0 <= i < |oracles| ==> Measured(oracles[i].rates)
    ensures mode == ClientHandshake(cfg.reverse)
    ensures cfg.reverse ==> outcome == ReverseReceived(Sum(results[..LeadingPositive(results)]))
    ensures !cfg.reverse ==> outcome.NormalSent? && |outcome.iterations| == Max(cfg.iterations, 0)
    ensures !cfg.reverse ==> forall i :: 0 <= i < |outcome.iterations| ==> outcome.iterations[i].rateAfter >= 0.0
    ensures !cfg.reverse ==> forall i :: 0 <= i < |outcome.iterations| ==>
      IterationMeets(cfg, CarriedBefore(outcome.iterations, i), OracleAt(oracles, i), outcome.iterations[i])
  {
    mode := [if cfg.reverse then 'R' else 'N'];
    if cfg.reverse {
      var total, _ := ReceiveUntilEof(results);
      return mode, ReverseReceived(total);
    }
    var maxThroughput := 0.0;
    var done: seq<IterationResult> := [];
    var i := 0;
    while i < cfg.iterations
      invariant 0 <= i == |done| <= Max(cfg.iterations, 0)
      invariant maxThroughput == CarriedBefore(done, i) && maxThroughput >= 0.0
      invariant forall j :: 0 <= j < i ==> IterationMeets(cfg, CarriedBefore(done, j), OracleAt(oracles, j), done[j])
    {
      var r := RunIteration(cfg, maxThroughput, OracleAt(oracles, i));
      Extend(cfg, done, r, oracles);
      done := done + [r];
      maxThroughput := r.rateAfter;
      i := i + 1;
    }
    outcome := NormalSent(done);
  }

  /** Once an iteration of a rate-based run ends with the measured rate at or above the target,
      every later iteration's rate ramp sends nothing: the reached rate is carried unchanged. */
  lemma RampLatches(cfg: Config, its: seq<IterationResult>, oracles: seq<Oracle>, i: nat, j: nat)
    requires cfg.bufferSize > 0 && cfg.constantRate && RateBased(cfg)
    requires forall k {:trigger OracleAt(oracles, k)} :: 0 <= k < |its| ==>
      IterationMeets(cfg, CarriedBefore(its, k), OracleAt(oracles, k), its[k])
    requires i < j < |its|
    requires its[i].rateAfter >= cfg.targetRate.value as real
    ensures its[j].increasing == [] && its[j].rateAfter == its[i].rateAfter
  {
    var k := i + 1;
    while k < j
      invariant i + 1 <= k <= j
      invariant its[k - 1].rateAfter == its[i].rateAfter
    {
      LatchedIteration(cfg, CarriedBefore(its, k), OracleAt(oracles, k), its[k]);
      k := k + 1;
    }
    LatchedIteration(cfg, CarriedBefore(its, j), OracleAt(oracles, j), its[j]);
  }

  /** One iteration of a rate-based run that starts at or above the target leaves everything as it was. */
  lemma LatchedIteration(cfg: Config, carried: real, o: Oracle, r: IterationResult)
    requires cfg.bufferSize > 0 && cfg.constantRate && RateBased(cfg)
    requires IterationMeets(cfg, carried, o, r)
    requires carried >= cfg.targetRate.value as real
    ensures r.increasing == [] && r.rateAfter == carried
  {
    RampCarryOver(carried, o.rates, cfg.targetRate.value as real);
  }
}
