/** archive/client_side_with_sleep_and_constant_rate.py: the archived client with a running-max
    increasing phase. In reverse mode it receives for `--time` seconds per iteration into one
    `total_data_received` that is never reset; in normal mode it sends `--bytes` bytes, or runs
    a running-max ramp for `normal_duration` seconds followed (with `--constant_rate`) by
    chunks sized from that maximum. A keyboard interrupt ends the current iteration and all
    later ones. */
module ArchiveRateClient {
  import opened Common
  import opened Transfer
  import opened Mode
  import opened Sessions

  datatype Config = Config(
    reverse: bool,
    time: int,
    iterations: Option<int>,
    sleep: Option<int>,
    bytes: Option<int>,
    constantRate: bool,
    normalDuration: int)

  /** The reverse loop's condition `(iterations and elapsed < time) or (not iterations and
      (time is None or elapsed < time))`. `--time` here is an `int` defaulting to 10, so it is
      never `None` and the condition is the plain deadline whatever the iteration count. */
  function KeepReceiving(iterations: Option<int>, time: int, elapsed: real): (b: bool)
    ensures b <==> BeforeDeadline(elapsed, Some(time as real))
  {
    (Truthy(iterations) && elapsed < time as real) || (!Truthy(iterations) && elapsed < time as real)
  }

  /** `time.sleep(args.sleep)` after an iteration that was not interrupted, only when both
      `--iterations` and `--sleep` are given and non-zero; 0 stands for no sleep. */
  function SleepAfter(cfg: Config, interrupted: bool): (s: int)
    ensures s != 0 <==> !interrupted && Truthy(cfg.iterations) && Truthy(cfg.sleep)
    ensures s != 0 ==> s == cfg.sleep.value
  {
    if !interrupted && Truthy(cfg.iterations) && Truthy(cfg.sleep) then cfg.sleep.value else 0
  }

  // ---------------------------------------------------------------------------------------
  // Normal mode: fixed volume, or running-max ramp then the constant chunks

  /** One normal iteration's observations: the ramp's clock readings and throughput
      measurements, the constant phase's clock readings, and the send a keyboard interrupt
      hits, if any. */
  datatype SendOracle = SendOracle(rampTicks: seq<real>, rates: seq<real>, constantTicks: seq<real>, stop: Option<nat>)

  function SendOracleAt(oracles: seq<SendOracle>, i: nat): SendOracle
  {
    if i < |oracles| then oracles[i] else SendOracle([], [], [], None)
  }

  /** One normal iteration: the sends it would make, the running maxima and the final
      `max_throughput_mbps` (0, reset per iteration, in fixed-volume mode), the sends made
      before any interrupt, `total_data_sent`, whether it was interrupted, and the sleep. */
  datatype SendIteration = SendIteration(
    planned: seq<nat>, maxes: seq<real>, maxAfter: real, sent: seq<nat>, total: int, interrupted: bool, slept: int)

  /** The sends an uninterrupted iteration makes. */
  ghost predicate PlannedSends(cfg: Config, o: SendOracle, r: SendIteration)
  {
    if Truthy(cfg.bytes) then
      r.planned == VolumeChunks(cfg.bytes.value, BUFFER_SIZE) && r.maxes == [] && r.maxAfter == 0.0
    else
      var n := Min(LeadingBelow(o.rampTicks, cfg.normalDuration as real), |o.rates|);
      && |r.maxes| == n && (forall k :: 0 <= k < n ==> r.maxes[k] == MaxPrefix(o.rates, k + 1))
      && r.maxAfter == MaxPrefix(o.rates, n) && r.maxAfter >= 0.0
      && r.planned == Repeat(n, BUFFER_SIZE) +
           (if cfg.constantRate
            then Repeat(LeadingBelow(o.constantTicks, cfg.normalDuration as real), RateChunk(BUFFER_SIZE, r.maxAfter))
            else [])
  }

  ghost predicate SendMeets(cfg: Config, o: SendOracle, r: SendIteration)
  {
    && PlannedSends(cfg, o, r)
    && r.sent == Cut(r.planned, o.stop)
    && r.interrupted == Interrupted(r.planned, o.stop)
    && r.total == Sum(r.sent)
    && r.slept == SleepAfter(cfg, r.interrupted)
  }

  method SendIterationRun(cfg: Config, o: SendOracle) returns (r: SendIteration)
    ensures SendMeets(cfg, o, r)
    ensures forall i, j :: 0 <= i <= j < |r.maxes| ==> r.maxes[i] <= r.maxes[j]
  {
    var planned: seq<nat>;
    var maxes: seq<real> := [];
    var maxThroughput := 0.0;
    if Truthy(cfg.bytes) {
      var volumeSent;
      planned, volumeSent := SendFixedVolume(cfg.bytes.value, BUFFER_SIZE);
    } else {
      var ramp, rampSent;
      ramp, rampSent, maxes, maxThroughput := RunningMaxRamp(o.rampTicks, cfg.normalDuration as real, o.rates);
      MaxesSorted(o.rates, maxes);
      var constant: seq<nat> := [];
      if cfg.constantRate {
        var bytesPerSecond := maxThroughput * 1024.0 * 1024.0 / 8.0;
        var constantSent;
        constant, constantSent := SendChunksUntil(o.constantTicks, cfg.normalDuration as real, Min(BUFFER_SIZE, Trunc(bytesPerSecond)));
      }
      planned := ramp + constant;
    }
    var sent := Cut(planned, o.stop);
    var interrupted := Interrupted(planned, o.stop);
    r := SendIteration(planned, maxes, maxThroughput, sent, Sum(sent), interrupted, SleepAfter(cfg, interrupted));
  }

  /** A fixed-volume iteration that is not interrupted sends exactly `--bytes` bytes. */
  lemma VolumeIterationTotal(cfg: Config, o: SendOracle, r: SendIteration)
    requires SendMeets(cfg, o, r) && Truthy(cfg.bytes) && o.stop.None?
    ensures r.total == Max(cfg.bytes.value, 0)
  {
    VolumeSum(cfg.bytes.value, BUFFER_SIZE);
  }

  // ---------------------------------------------------------------------------------------
  // The session

  datatype Outcome = Received(receives: seq<ReceiveIteration>) | Sent(sends: seq<SendIteration>)

  function SendFlags(its: seq<SendIteration>): (f: seq<bool>)
    ensures |f| == |its| && forall i :: 0 <= i < |its| ==> f[i] == its[i].interrupted
  {
    seq(|its|, i requires 0 <= i < |its| => its[i].interrupted)
  }

  method SendSession(cfg: Config, oracles: seq<SendOracle>) returns (its: seq<SendIteration>)
    ensures StopsAtInterrupt(IterationsOrOne(cfg.iterations), SendFlags(its))
    ensures forall i :: 0 <= i < |its| ==> SendMeets(cfg, SendOracleAt(oracles, i), its[i])
  {
    var count := IterationsOrOne(cfg.iterations);
    its := [];
    var i := 0;
    while i < count
      invariant 0 <= i == |its| <= count
      invariant forall j :: 0 <= j < i ==> !its[j].interrupted
      invariant forall j :: 0 <= j < i ==> SendMeets(cfg, SendOracleAt(oracles, j), its[j])
    {
      var r := SendIterationRun(cfg, SendOracleAt(oracles, i));
      its := its + [r];
      i := i + 1;
      if r.interrupted {
        break;
      }
    }
  }

  /** The script after `connect`: the mode byte, then the reverse or normal iterations; the
      reverse total runs on across iterations. */
  method RunClient(cfg: Config, receives: seq<ReceiveOracle>, sends: seq<SendOracle>)
    returns (mode: seq<char>, outcome: Outcome)
    ensures mode == ClientHandshake(cfg.reverse)
    ensures cfg.reverse <==> outcome.Received?
    ensures outcome.Received? ==>
      && StopsAtInterrupt(IterationsOrOne(cfg.iterations), ReceiveFlags(outcome.receives))
      && Accumulates(outcome.receives)
      && forall i :: 0 <= i < |outcome.receives| ==>
           && ReceiptOf(ReceiveOracleAt(receives, i), Some(cfg.time as real), outcome.receives[i].receipt)
           && outcome.receives[i].slept == SleepAfter(cfg, outcome.receives[i].receipt.interrupted)
    ensures outcome.Sent? ==>
      && StopsAtInterrupt(IterationsOrOne(cfg.iterations), SendFlags(outcome.sends))
      && forall i :: 0 <= i < |outcome.sends| ==> SendMeets(cfg, SendOracleAt(sends, i), outcome.sends[i])
  {
    if cfg.reverse {
      mode := ['R'];
      var its := CumulativeReceive(IterationsOrOne(cfg.iterations), Some(cfg.time as real), SleepAfter(cfg, false), receives);
      outcome := Received(its);
    } else {
      mode := ['N'];
      var its := SendSession(cfg, sends);
      outcome := Sent(its);
    }
  }
}
