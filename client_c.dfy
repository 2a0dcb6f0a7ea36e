/** client_side.c: the C client. It writes the one-byte mode; in reverse mode it adds up `recv`
    results until one is 0 or negative; in normal mode each iteration (with `-C`) sends full
    buffers until `bytes_sent` reaches `target_bytes` or for `time_based_phase` seconds, then
    full buffers for `phase_time` seconds; without `-C` an iteration sends nothing. */
module ClientC {
  import opened Common
  import opened Transfer
  import opened Mode

  // ---------------------------------------------------------------------------------------
  // The round-up ramp: `while (bytes_sent < target_bytes) { send(BUFFER_SIZE); bytes_sent += BUFFER_SIZE; }`

  /** How many full buffers it takes to reach `target` bytes: `ceil(target / BUFFER_SIZE)`. */
  function RoundUpSends(target: int): nat
  {
    if target <= 0 then 0 else (target + BUFFER_SIZE - 1) / BUFFER_SIZE
  }

  /** The round-up count is the least number of full buffers whose total reaches the target. */
  lemma RoundUpLeast(target: int, n: nat)
    requires target > 0
    ensures RoundUpSends(target) * BUFFER_SIZE >= target
    ensures (RoundUpSends(target) - 1) * BUFFER_SIZE < target
    ensures n * BUFFER_SIZE >= target ==> n >= RoundUpSends(target)
  {
    var q := (target + BUFFER_SIZE - 1) / BUFFER_SIZE;
    assert q * BUFFER_SIZE <= target + BUFFER_SIZE - 1 < q * BUFFER_SIZE + BUFFER_SIZE;
  }

  /** The C target is a whole number of buffers, so the ramp ends exactly on it. */
  lemma RoundUpOfWholeBuffers(targetRate: int)
    requires targetRate >= 0
    ensures RoundUpSends(targetRate * BUFFER_SIZE) == targetRate
    ensures RoundUpSends(targetRate * BUFFER_SIZE) * BUFFER_SIZE == targetRate * BUFFER_SIZE
  {
    if targetRate > 0 {
      assert targetRate * BUFFER_SIZE + BUFFER_SIZE - 1 == targetRate * BUFFER_SIZE + (BUFFER_SIZE - 1);
    }
  }

  /** The rate-based ramp: whatever `send` returns, each call counts as a full buffer. */
  method RoundUpRamp(targetBytes: int) returns (trace: seq<nat>, bytesSent: int)
    ensures trace == Repeat(RoundUpSends(targetBytes), BUFFER_SIZE)
    ensures bytesSent == Sum(trace) == |trace| * BUFFER_SIZE
    ensures bytesSent >= targetBytes && (trace != [] ==> bytesSent - BUFFER_SIZE < targetBytes)
  {
    trace, bytesSent := [], 0;
    while bytesSent < targetBytes
      invariant trace == Repeat(|trace|, BUFFER_SIZE) && bytesSent == |trace| * BUFFER_SIZE
      invariant trace != [] ==> bytesSent - BUFFER_SIZE < targetBytes
      decreases targetBytes - bytesSent
    {
      trace := trace + [BUFFER_SIZE];
      bytesSent := bytesSent + BUFFER_SIZE;
    }
    if targetBytes > 0 {
      RoundUpLeast(targetBytes, |trace|);
      RoundUpLeast(targetBytes, RoundUpSends(targetBytes));
    }
    SumRepeat(|trace|, BUFFER_SIZE);
  }

  // ---------------------------------------------------------------------------------------
  // Iterations and the session

  datatype Config = Config(
    reverse: bool,
    iterations: int,
    sleepDuration: int,
    constantRate: bool,
    phaseTime: int,
    targetRate: int,
    rateBasedPhase: bool,
    timeBasedPhase: int)

  /** The clock readings of one iteration: the time-based ramp's and the constant phase's. */
  datatype Oracle = Oracle(rampTicks: seq<real>, constantTicks: seq<real>)

  function OracleAt(oracles: seq<Oracle>, i: nat): Oracle
  {
    if i < |oracles| then oracles[i] else Oracle([], [])
  }

  /** One iteration: the increasing phase's sends with `bytes_sent` after it (reset to 0 at
      the start of every iteration), the number of constant-phase sends, and the seconds slept
      after it (0 for none). */
  datatype IterationResult = IterationResult(ramp: seq<nat>, bytesSent: int, constantSends: nat, slept: int)

  /** `target_bytes` is computed whenever `-C` is given, and must not overflow. */
  predicate Runnable(cfg: Config)
  {
    cfg.constantRate ==> InInt32(cfg.targetRate * 1024 * 1024)
  }

  /** One iteration: without `-C` it sends nothing; either way it ends with
      `if (sleep_duration > 0) sleep(sleep_duration)`. */
  ghost predicate IterationMeets(cfg: Config, o: Oracle, r: IterationResult)
    requires Runnable(cfg)
  {
    && r.bytesSent == Sum(r.ramp)
    && r.slept == Max(cfg.sleepDuration, 0)
    && if cfg.constantRate then
         && r.ramp == (if cfg.rateBasedPhase then Repeat(Max(cfg.targetRate, 0), BUFFER_SIZE)
                       else if cfg.timeBasedPhase > 0 then Repeat(LeadingBelow(o.rampTicks, cfg.timeBasedPhase as real), BUFFER_SIZE)
                       else [])
         && r.constantSends == LeadingBelow(o.constantTicks, cfg.phaseTime as real)
       else
         r.ramp == [] && r.constantSends == 0
  }

  method RunIteration(cfg: Config, o: Oracle) returns (r: IterationResult)
    requires Runnable(cfg)
    ensures IterationMeets(cfg, o, r)
  {
    var bytesSent := 0;
    var ramp: seq<nat> := [];
    var constantSends := 0;
    if cfg.constantRate {
      var targetBytes := CTargetBytes(cfg.targetRate);
      if cfg.rateBasedPhase {
        ramp, bytesSent := RoundUpRamp(targetBytes);
        if cfg.targetRate >= 0 {
          RoundUpOfWholeBuffers(cfg.targetRate);
        }
      } else if cfg.timeBasedPhase > 0 {
        ramp, bytesSent := SendChunksUntil(o.rampTicks, cfg.timeBasedPhase as real, BUFFER_SIZE);
      }
      var constant, _ := SendChunksUntil(o.constantTicks, cfg.phaseTime as real, BUFFER_SIZE);
      constantSends := |constant|;
    }
    var slept := 0;
    if cfg.sleepDuration > 0 {
      slept := cfg.sleepDuration;
    }
    r := IterationResult(ramp, bytesSent, constantSends, slept);
  }

  datatype Outcome = Received(total: int) | Sent(iterations: seq<IterationResult>)

  /** `main` after `connect`, then `handle_server`. */
  method RunClient(cfg: Config, results: seq<int>, oracles: seq<Oracle>) returns (mode: seq<char>, outcome: Outcome)
    requires Runnable(cfg)
    ensures mode == ClientHandshake(cfg.reverse)
    ensures cfg.reverse ==> outcome == Received(Sum(results[..LeadingPositive(results)]))
    ensures !cfg.reverse ==> outcome.Sent? && |outcome.iterations| == Max(cfg.iterations, 0)
    ensures !cfg.reverse ==> forall i :: 0 <= i < |outcome.iterations| ==>
      IterationMeets(cfg, OracleAt(oracles, i), outcome.iterations[i])
  {
    mode := [if cfg.reverse then 'R' else 'N'];
    if cfg.reverse {
      var total, _ := ReceiveUntilEof(results);
      return mode, Received(total);
    }
    var done: seq<IterationResult> := [];
    var i := 0;
    while i < cfg.iterations
      invariant 0 <= i == |done| <= Max(cfg.iterations, 0)
      invariant forall j :: 0 <= j < i ==> IterationMeets(cfg, OracleAt(oracles, j), done[j])
    {
      var r := RunIteration(cfg, OracleAt(oracles, i));
      done := done + [r];
      i := i + 1;
    }
    outcome := Sent(done);
  }
}
