/** advanced_server.py: the validating server. In reverse mode each iteration runs either an
    increasing phase (rate based: a byte target that grows linearly per iteration; or time
    based) followed by a paced constant-rate phase that spends the increasing phase's byte
    volume, or a plain fixed-volume or timed transfer. */
module AdvancedServer {
  import opened Common
  import opened Transfer
  import opened Mode

  /** The pacing interval of the constant-rate phase, `interval = 0.01`. */
  const INTERVAL: real := 0.01

  datatype Config = Config(
    iterations: int,
    sleep: int,
    constantRate: bool,
    consphaseTime: int,
    targetRate: Option<int>,
    rateBasedPhase: bool,
    timeBasedPhase: Option<int>,
    bytes: Option<int>,
    time: Option<int>)

  /** `args.rate_based_phase and args.target_rate` */
  predicate RateBased(cfg: Config)
  {
    cfg.rateBasedPhase && Truthy(cfg.targetRate)
  }

  /** What the script needs to run at all: with `--constant_rate` one of the two increasing
      phases must run, or `current_byte_send` is never assigned; and the constant phase
      divides by `consphase_time`, which must not be 0 (a negative one is accepted: its
      deadline has already passed when the phase starts). */
  predicate Runnable(cfg: Config)
  {
    cfg.constantRate ==> (RateBased(cfg) || Truthy(cfg.timeBasedPhase)) && cfg.consphaseTime != 0
  }

  /** The target rate (Mbps) of iteration `i`: the base, then `base * (1 + 0.2 * i)`. */
  function IterationTarget(base: int, i: nat): (t: real)
    ensures t == base as real + (i as real) * (base as real) / 5.0
  {
    if i == 0 then base as real else base as real * (1.0 + 0.2 * i as real)
  }

  /** The escalation is linear in the iteration number: every iteration adds a fifth of the
      BASE rate, rather than a fifth of the previous iteration's rate. */
  lemma {:induction false} TargetLinear(base: int, i: nat)
    ensures IterationTarget(base, i) == base as real + (i as real) * (base as real) / 5.0
    ensures IterationTarget(base, i + 1) - IterationTarget(base, i) == base as real / 5.0
  {
    assert base as real * (1.0 + 0.2 * i as real) == base as real + (i as real) * (base as real) / 5.0;
    assert base as real * (1.0 + 0.2 * (i + 1) as real) == base as real + ((i + 1) as real) * (base as real) / 5.0;
  }

  /** Mbps to bytes: `rate * (1024 * 1024) / 8`. */
  function ByteTarget(rateMbps: real): (b: real)
    ensures b == rateMbps * MBPS_TO_BYTES as real
  {
    rateMbps * (1024 * 1024) as real / 8.0
  }

  /** Bytes per pacing interval: `bytes_in_constant_rate / consphase_time * interval`. Over
      the `phase_time / interval` intervals of the phase these add up to exactly the budget;
      over a positive phase time they have the budget's sign. */
  function PerInterval(budget: real, phaseTime: int): (r: real)
    requires phaseTime != 0
    ensures r * (phaseTime as real / INTERVAL) == budget
    ensures phaseTime > 0 ==> (budget >= 0.0 ==> r >= 0.0) && (budget <= 0.0 ==> r <= 0.0)
  {
    budget / phaseTime as real * INTERVAL
  }

  /** 5 000 000 bytes over 5 seconds are 10 000 bytes per 10 ms tick (8 000 000 bit/s). */
  lemma PerIntervalScenario()
    ensures PerInterval(5000000.0, 5) == 10000.0
  {
  }

  /** Python's float `elapsed % interval`, which takes the sign of the (positive) divisor. */
  function RealMod(x: real, m: real): real
    requires m > 0.0
  {
    x - m * (x / m).Floor as real
  }

  /** The pacing sleep `interval - (elapsed % interval)`: it wakes the pacer on the next
      multiple of the interval after `elapsed`. */
  function PacingSleep(interval: real, elapsed: real): (s: real)
    requires interval > 0.0
    ensures elapsed + s == interval * ((elapsed / interval).Floor + 1) as real
  {
    interval - RealMod(elapsed, interval)
  }

  /** The sleep always lies in (0, interval]: the pacer never sleeps a negative or zero time,
      and never longer than one interval, whatever the measured elapsed time. */
  lemma SleepWithinInterval(interval: real, elapsed: real)
    requires interval > 0.0
    ensures 0.0 < PacingSleep(interval, elapsed) <= interval
  {
    var f := (elapsed / interval).Floor as real;
    ScaledFloor(interval, elapsed, elapsed / interval, f);
    assert RealMod(elapsed, interval) == elapsed - interval * f;
  }

  /** Multiplying `f <= x / m < f + 1` through by `m`. */
  lemma ScaledFloor(m: real, x: real, q: real, f: real)
    requires m > 0.0 && q == x / m && f <= q < f + 1.0
    ensures m * f <= x < m * f + m
  {
    MulMonotone(m, f, q);
    MulMonotone(m, q, f + 1.0);
    assert m * q == x;
    assert m * (f + 1.0) == m * f + m;
  }

  lemma MulMonotone(m: real, a: real, b: real)
    requires m > 0.0 && a <= b
    ensures m * a <= m * b
    ensures a < b ==> m * a < m * b
  {
    assert m * b - m * a == m * (b - a);
  }

  /** The rate-based increasing phase: `while total < current_byte_send:` send
      `min(len(DATA), int(current_byte_send - total))`, stopping early if that is 0. */
  method RateRamp(target: real) returns (trace: seq<nat>, total: int)
    ensures trace == VolumeChunks(target.Floor, BUFFER_SIZE)
    ensures total == Sum(trace) == Max(target.Floor, 0)
  {
    trace, total := [], 0;
    while total as real < target
      invariant 0 <= total <= Max(target.Floor, 0)
      invariant trace + VolumeChunks(target.Floor - total, BUFFER_SIZE) == VolumeChunks(target.Floor, BUFFER_SIZE)
      invariant total == Sum(trace)
      decreases target.Floor - total
    {
      var remaining := target - total as real;
      var chunk := Min(BUFFER_SIZE, Trunc(remaining));
      if chunk <= 0 {
        break;
      }
      assert Trunc(remaining) == target.Floor - total;
      var rest := target.Floor - total;
      assert VolumeChunks(rest, BUFFER_SIZE) == [chunk] + VolumeChunks(rest - chunk, BUFFER_SIZE);
      assert trace + VolumeChunks(rest, BUFFER_SIZE) == (trace + [chunk]) + VolumeChunks(rest - chunk, BUFFER_SIZE);
      SumAppend(trace, chunk);
      trace, total := trace + [chunk], total + chunk;
    }
    assert VolumeChunks(target.Floor - total, BUFFER_SIZE) == [];
    assert trace == VolumeChunks(target.Floor, BUFFER_SIZE);
  }

  /** Every rate-ramp chunk is in 1..BUFFER_SIZE and the ramp never sends more than the target. */
  lemma RateRampBounds(target: real)
    ensures forall j :: 0 <= j < |VolumeChunks(target.Floor, BUFFER_SIZE)| ==>
      1 <= VolumeChunks(target.Floor, BUFFER_SIZE)[j] <= BUFFER_SIZE
    ensures target >= 0.0 ==> Sum(VolumeChunks(target.Floor, BUFFER_SIZE)) as real <= target
  {
    VolumeBounds(target.Floor, BUFFER_SIZE);
    VolumeSum(target.Floor, BUFFER_SIZE);
  }

  /** One reading of the constant-phase loop: the loop-condition clock reading (relative to the
      moment `constant_phase_end` was set) and the elapsed time (relative to `start_time`)
      measured after the send, from which the sleep is computed. */
  datatype PaceTick = PaceTick(now: Reading, elapsed: real)

  /** A clock reading taken after a deadline was set, relative to that moment: it is never
      negative, since the clock does not run backwards. */
  type Reading = r: real | r >= 0.0

  /** The chunk of one constant-phase tick after `sent` bytes:
      `min(min(int(bytes_per_interval), len(DATA)), int(remaining_bytes))`. */
  function PaceChunk(budget: real, perInterval: real, sent: int): int
  {
    Min(Min(Trunc(perInterval), BUFFER_SIZE), Trunc(budget - sent as real))
  }

  /** Where the constant phase is allowed to go: a non-negative per-interval rate, a budget
      already spent, or a deadline already past (a negative rate comes only with a negative
      budget or a negative phase time). */
  predicate PaceInputs(budget: real, perInterval: real, limit: real, sent: int)
  {
    sent >= 0 && (perInterval >= 0.0 || budget <= 0.0 || limit <= 0.0)
  }

  /** The chunks the constant phase sends once `sent` bytes are out and the loop condition
      will see the readings `ticks`: nothing once the deadline has passed or no bytes remain. */
  function PaceTrace(budget: real, perInterval: real, ticks: seq<PaceTick>, limit: real, sent: int): (t: seq<nat>)
    requires PaceInputs(budget, perInterval, limit, sent)
    ensures |t| <= |ticks|
    decreases |ticks|
  {
    if ticks == [] || ticks[0].now >= limit || budget - sent as real <= 0.0 then []
    else
      var c := PaceChunk(budget, perInterval, sent);
      [c] + PaceTrace(budget, perInterval, ticks[1..], limit, sent + c)
  }

  /** Whether the constant phase leaves through `remaining_bytes <= 0` rather than the deadline. */
  function PaceEarly(budget: real, perInterval: real, ticks: seq<PaceTick>, limit: real, sent: int): bool
    requires PaceInputs(budget, perInterval, limit, sent)
    decreases |ticks|
  {
    if ticks == [] || ticks[0].now >= limit then false
    else if budget - sent as real <= 0.0 then true
    else PaceEarly(budget, perInterval, ticks[1..], limit, sent + PaceChunk(budget, perInterval, sent))
  }

  /** The constant-rate phase: while time is left, stop if `remaining_bytes <= 0`, else send
      the paced chunk and sleep `interval - (elapsed % interval)` (always positive, so the
      `if sleep_time > 0` guard always passes). */
  method PacedConstantPhase(budget: real, perInterval: real, ticks: seq<PaceTick>, limit: real)
    returns (trace: seq<nat>, sent: int, sleeps: seq<real>, early: bool)
    requires perInterval >= 0.0 || budget <= 0.0 || limit <= 0.0
    ensures trace == PaceTrace(budget, perInterval, ticks, limit, 0)
    ensures early == PaceEarly(budget, perInterval, ticks, limit, 0)
    ensures sent == Sum(trace)
    ensures |sleeps| == |trace| && forall j :: 0 <= j < |trace| ==> sleeps[j] == PacingSleep(INTERVAL, ticks[j].elapsed)
  {
    trace, sent, sleeps, early := [], 0, [], false;
    var k := 0;
    while k < |ticks| && ticks[k].now < limit
      invariant 0 <= k <= |ticks| && |trace| == k
      invariant PaceSoFar(budget, perInterval, ticks, limit, k, trace, sent)
      invariant SleptSoFar(ticks, k, sleeps)
    {
      if budget - sent as real <= 0.0 {
        PaceStop(budget, perInterval, ticks, limit, k, trace, sent);
        early := true;
        break;
      }
      var chunk := PaceChunk(budget, perInterval, sent);
      PaceStepAt(budget, perInterval, ticks, limit, k, trace, sent);
      trace, sent := trace + [chunk], sent + chunk;
      SleptStep(ticks, k, sleeps);
      sleeps := sleeps + [PacingSleep(INTERVAL, ticks[k].elapsed)];
      k := k + 1;
    }
    if !early {
      PaceDeadline(budget, perInterval, ticks, limit, k, trace, sent);
    }
  }

  /** The pacing sleeps after the first `k` ticks' sends. */
  ghost predicate SleptSoFar(ticks: seq<PaceTick>, k: nat, sleeps: seq<real>)
    requires k <= |ticks|
  {
    |sleeps| == k && forall j :: 0 <= j < k ==> sleeps[j] == PacingSleep(INTERVAL, ticks[j].elapsed)
  }

  lemma SleptStep(ticks: seq<PaceTick>, k: nat, sleeps: seq<real>)
    requires k < |ticks| && SleptSoFar(ticks, k, sleeps)
    ensures SleptSoFar(ticks, k + 1, sleeps + [PacingSleep(INTERVAL, ticks[k].elapsed)])
  {
  }

  /** The constant phase after `k` ticks: `trace` went out, `sent` bytes in all, and what the
      remaining readings send completes the whole phase's trace. */
  ghost predicate PaceSoFar(budget: real, perInterval: real, ticks: seq<PaceTick>, limit: real, k: nat, trace: seq<nat>, sent: int)
    requires k <= |ticks|
  {
    && PaceInputs(budget, perInterval, limit, sent)
    && sent == Sum(trace)
    && trace + PaceTrace(budget, perInterval, ticks[k..], limit, sent) == PaceTrace(budget, perInterval, ticks, limit, 0)
    && PaceEarly(budget, perInterval, ticks[k..], limit, sent) == PaceEarly(budget, perInterval, ticks, limit, 0)
  }

  /** The phase at tick `k` with its budget spent: it leaves early and sends nothing more. */
  lemma PaceStop(budget: real, perInterval: real, ticks: seq<PaceTick>, limit: real, k: nat, trace: seq<nat>, sent: int)
    requires k < |ticks| && PaceSoFar(budget, perInterval, ticks, limit, k, trace, sent)
    requires ticks[k].now < limit && budget - sent as real <= 0.0
    ensures trace == PaceTrace(budget, perInterval, ticks, limit, 0)
    ensures PaceEarly(budget, perInterval, ticks, limit, 0)
  {
    assert ticks[k..][0] == ticks[k];
    assert PaceTrace(budget, perInterval, ticks[k..], limit, sent) == [];
    assert trace + [] == trace;
  }

  /** The phase at the deadline (or the end of the readings) sends nothing more and did not
      leave early. */
  lemma PaceDeadline(budget: real, perInterval: real, ticks: seq<PaceTick>, limit: real, k: nat, trace: seq<nat>, sent: int)
    requires k <= |ticks| && PaceSoFar(budget, perInterval, ticks, limit, k, trace, sent)
    requires !(k < |ticks| && ticks[k].now < limit)
    ensures trace == PaceTrace(budget, perInterval, ticks, limit, 0)
    ensures !PaceEarly(budget, perInterval, ticks, limit, 0)
  {
    if k < |ticks| {
      assert ticks[k..][0] == ticks[k];
    }
    assert PaceTrace(budget, perInterval, ticks[k..], limit, sent) == [];
    assert trace + [] == trace;
  }

  /** One tick of the loop at position `k`: the trace so far grows by the paced chunk. */
  lemma PaceStepAt(budget: real, perInterval: real, ticks: seq<PaceTick>, limit: real, k: nat, trace: seq<nat>, sent: int)
    requires k < |ticks| && PaceSoFar(budget, perInterval, ticks, limit, k, trace, sent)
    requires ticks[k].now < limit && budget - sent as real > 0.0
    ensures PaceChunk(budget, perInterval, sent) >= 0
    ensures PaceSoFar(budget, perInterval, ticks, limit, k + 1, trace + [PaceChunk(budget, perInterval, sent)],
                      sent + PaceChunk(budget, perInterval, sent))
  {
    var c := PaceChunk(budget, perInterval, sent);
    var rest := ticks[k..];
    assert rest[0] == ticks[k] && rest[1..] == ticks[k + 1..];
    PaceStep(budget, perInterval, rest, limit, sent);
    var tail := PaceTrace(budget, perInterval, ticks[k + 1..], limit, sent + c);
    assert PaceTrace(budget, perInterval, rest, limit, sent) == [c] + tail;
    assert trace + ([c] + tail) == (trace + [c]) + tail;
    SumAppend(trace, c);
  }

  /** One tick of the constant phase with time and bytes left. */
  lemma PaceStep(budget: real, perInterval: real, ticks: seq<PaceTick>, limit: real, sent: int)
    requires PaceInputs(budget, perInterval, limit, sent)
    requires ticks != [] && ticks[0].now < limit && budget - sent as real > 0.0
    ensures PaceChunk(budget, perInterval, sent) >= 0
    ensures PaceInputs(budget, perInterval, limit, sent + PaceChunk(budget, perInterval, sent))
    ensures PaceTrace(budget, perInterval, ticks, limit, sent)
      == [PaceChunk(budget, perInterval, sent)] + PaceTrace(budget, perInterval, ticks[1..], limit, sent + PaceChunk(budget, perInterval, sent))
    ensures PaceEarly(budget, perInterval, ticks, limit, sent)
      == PaceEarly(budget, perInterval, ticks[1..], limit, sent + PaceChunk(budget, perInterval, sent))
  {
  }

  /** Every constant-phase chunk is at most `min(int(bytes_per_interval), BUFFER_SIZE)`, and the
      phase never sends more than the bytes that remain of its budget. */
  lemma {:induction false} PaceWithinBudget(budget: real, perInterval: real, ticks: seq<PaceTick>, limit: real, sent: int)
    requires PaceInputs(budget, perInterval, limit, sent)
    ensures forall j :: 0 <= j < |PaceTrace(budget, perInterval, ticks, limit, sent)| ==>
      PaceTrace(budget, perInterval, ticks, limit, sent)[j] <= Min(Trunc(perInterval), BUFFER_SIZE)
    ensures (sent + Sum(PaceTrace(budget, perInterval, ticks, limit, sent))) as real <= MaxReal(budget, sent as real)
    decreases |ticks|
  {
    var t := PaceTrace(budget, perInterval, ticks, limit, sent);
    if !(ticks == [] || ticks[0].now >= limit || budget - sent as real <= 0.0) {
      var c := PaceChunk(budget, perInterval, sent);
      PaceStep(budget, perInterval, ticks, limit, sent);
      PaceWithinBudget(budget, perInterval, ticks[1..], limit, sent + c);
      SumCons(c, PaceTrace(budget, perInterval, ticks[1..], limit, sent + c));
    }
  }

  /** The phase ends early only when the budget is used up, and then before the deadline; when
      it does not end early, it ran until the deadline (or the end of the readings). */
  lemma {:induction false} PaceExit(budget: real, perInterval: real, ticks: seq<PaceTick>, limit: real, sent: int)
    requires PaceInputs(budget, perInterval, limit, sent)
    ensures var t := PaceTrace(budget, perInterval, ticks, limit, sent);
      && |t| <= |ticks|
      && (forall j :: 0 <= j < |t| ==> ticks[j].now < limit)
      && (PaceEarly(budget, perInterval, ticks, limit, sent) <==>
            |t| < |ticks| && ticks[|t|].now < limit)
      && (PaceEarly(budget, perInterval, ticks, limit, sent) ==> budget <= (sent + Sum(t)) as real)
    decreases |ticks|
  {
    if !(ticks == [] || ticks[0].now >= limit || budget - sent as real <= 0.0) {
      var c := PaceChunk(budget, perInterval, sent);
      PaceExit(budget, perInterval, ticks[1..], limit, sent + c);
      SumCons(c, PaceTrace(budget, perInterval, ticks[1..], limit, sent + c));
    }
  }

  /** A negative `consphase_time` puts the deadline in the past: the constant phase sends
      nothing, whatever its budget. */
  lemma PastDeadlineSendsNothing(budget: real, phaseTime: int, ticks: seq<PaceTick>)
    requires phaseTime < 0
    ensures PaceTrace(budget, PerInterval(budget, phaseTime), ticks, phaseTime as real, 0) == []
    ensures !PaceEarly(budget, PerInterval(budget, phaseTime), ticks, phaseTime as real, 0)
  {
  }

  // ---------------------------------------------------------------------------------------
  // Iterations and the session

  /** The clock readings one reverse-mode iteration sees: the time-based increasing phase's
      loop condition, the constant phase's ticks, and the timed transfer's loop condition,
      each relative to the moment its deadline was set. */
  datatype Oracle = Oracle(rampTicks: seq<real>, paceTicks: seq<PaceTick>, timedTicks: seq<real>)

  /** What one iteration sent: the increasing phase (or the plain transfer) and the constant
      phase, the constant phase's sleeps, whether it ended early, its byte budget
      (`current_byte_send`; 0 without `--constant_rate`), `total_data_sent`, and the seconds
      slept after the iteration (0 for none). */
  datatype IterationResult = IterationResult(
    increasing: seq<nat>, constant: seq<nat>, sleeps: seq<real>, early: bool, budget: real, total: int, slept: int)

  function OracleAt(oracles: seq<Oracle>, i: nat): Oracle
  {
    if i < |oracles| then oracles[i] else Oracle([], [], [])
  }

  /** The increasing phase of iteration `i` under `--constant_rate` and the byte budget it
      hands to the constant phase: the rate-based target, or what the time-based phase sent. */
  ghost predicate IncreasingMeets(cfg: Config, i: nat, o: Oracle, increasing: seq<nat>, budget: real)
    requires Runnable(cfg) && cfg.constantRate
  {
    if RateBased(cfg) then
      && budget == ByteTarget(IterationTarget(cfg.targetRate.value, i))
      && increasing == VolumeChunks(budget.Floor, BUFFER_SIZE)
    else
      && increasing == Repeat(LeadingBelow(o.rampTicks, cfg.timeBasedPhase.value as real), BUFFER_SIZE)
      && budget == Sum(increasing) as real
  }

  /** The constant phase that spends `r.budget` over `consphase_time` seconds. */
  ghost predicate ConstantMeets(cfg: Config, o: Oracle, r: IterationResult)
    requires Runnable(cfg) && cfg.constantRate
  {
    var perInterval := PerInterval(r.budget, cfg.consphaseTime);
    && r.constant == PaceTrace(r.budget, perInterval, o.paceTicks, cfg.consphaseTime as real, 0)
    && r.early == PaceEarly(r.budget, perInterval, o.paceTicks, cfg.consphaseTime as real, 0)
    && |r.sleeps| == |r.constant|
    && (forall j :: 0 <= j < |r.sleeps| ==> r.sleeps[j] == PacingSleep(INTERVAL, o.paceTicks[j].elapsed))
  }

  /** Without `--constant_rate`: `--bytes` if truthy, else `--time` if truthy, else nothing. */
  ghost predicate PlainMeets(cfg: Config, o: Oracle, r: IterationResult)
  {
    && r.constant == [] && r.sleeps == [] && !r.early && r.budget == 0.0
    && r.increasing == (if Truthy(cfg.bytes) then VolumeChunks(cfg.bytes.value, BUFFER_SIZE)
                        else if Truthy(cfg.time) then Repeat(LeadingBelow(o.timedTicks, cfg.time.value as real), BUFFER_SIZE)
                        else [])
  }

  /** Iteration `i` as the script runs it (the iteration's own counters start from 0), then
      `if args.sleep: time.sleep(args.sleep)` after every iteration. */
  ghost predicate IterationMeets(cfg: Config, i: nat, o: Oracle, r: IterationResult)
    requires Runnable(cfg)
  {
    && r.total == Sum(r.increasing) + Sum(r.constant)
    && r.slept == cfg.sleep
    && if cfg.constantRate then IncreasingMeets(cfg, i, o, r.increasing, r.budget) && ConstantMeets(cfg, o, r)
       else PlainMeets(cfg, o, r)
  }

  /** The increasing phase: `current_target_rate`, then the rate-based ramp; or the time-based
      phase, whose volume becomes `current_byte_send = total_data_sent`. */
  method IncreasingPhase(cfg: Config, i: nat, o: Oracle) returns (increasing: seq<nat>, budget: real, sent: int)
    requires Runnable(cfg) && cfg.constantRate
    ensures IncreasingMeets(cfg, i, o, increasing, budget)
    ensures sent == Sum(increasing)
  {
    if RateBased(cfg) {
      var currentTargetRate := if i == 0 then cfg.targetRate.value as real
                               else cfg.targetRate.value as real * (1.0 + 0.2 * i as real);
      budget := currentTargetRate * (1024 * 1024) as real / 8.0;
      increasing, sent := RateRamp(budget);
    } else {
      increasing, sent := SendChunksUntil(o.rampTicks, cfg.timeBasedPhase.value as real, BUFFER_SIZE);
      budget := sent as real;
    }
  }

  /** One reverse-mode iteration under `--constant_rate`. */
  method ConstantRateIteration(cfg: Config, i: nat, o: Oracle) returns (r: IterationResult)
    requires Runnable(cfg) && cfg.constantRate
    ensures IterationMeets(cfg, i, o, r)
  {
    var totalDataSent := 0;
    var increasing, currentByteSend, sent := IncreasingPhase(cfg, i, o);
    totalDataSent := totalDataSent + sent;
    var bytesPerInterval := currentByteSend / cfg.consphaseTime as real * INTERVAL;
    assert bytesPerInterval == PerInterval(currentByteSend, cfg.consphaseTime);
    var constant, constantSent, sleeps, early :=
      PacedConstantPhase(currentByteSend, bytesPerInterval, o.paceTicks, cfg.consphaseTime as real);
    totalDataSent := totalDataSent + constantSent;
    r := IterationResult(increasing, constant, sleeps, early, currentByteSend, totalDataSent, cfg.sleep);
  }

  /** One reverse-mode iteration without `--constant_rate`. */
  method PlainIteration(cfg: Config, o: Oracle) returns (r: IterationResult)
    ensures r.total == Sum(r.increasing) && r.slept == cfg.sleep
    ensures PlainMeets(cfg, o, r)
  {
    var totalDataSent := 0;
    var trace: seq<nat> := [];
    if Truthy(cfg.bytes) {
      var sent;
      trace, sent := SendFixedVolume(cfg.bytes.value, BUFFER_SIZE);
      totalDataSent := totalDataSent + sent;
    } else if Truthy(cfg.time) {
      var sent;
      trace, sent := SendChunksUntil(o.timedTicks, cfg.time.value as real, BUFFER_SIZE);
      totalDataSent := totalDataSent + sent;
    }
    r := IterationResult(trace, [], [], false, 0.0, totalDataSent, cfg.sleep);
  }

  /** One reverse-mode iteration: `total_data_sent = 0`, then the phases that the flags select. */
  method RunIteration(cfg: Config, i: nat, o: Oracle) returns (r: IterationResult)
    requires Runnable(cfg)
    ensures IterationMeets(cfg, i, o, r)
  {
    if cfg.constantRate {
      r := ConstantRateIteration(cfg, i, o);
    } else {
      r := PlainIteration(cfg, o);
    }
  }

  /** How a session of the validating server ends. */
  datatype Outcome = InvalidMode | Received(total: int) | Sent(iterations: seq<IterationResult>)

  /** The whole server after `accept`: read the mode byte, reject anything but 'N'/'R' before
      any transfer, receive until end of stream in normal mode, or run `range(iterations)`
      reverse-mode iterations. */
  method Serve(cfg: Config, first: Option<char>, results: seq<int>, oracles: seq<Oracle>) returns (outcome: Outcome)
    requires Runnable(cfg)
    ensures outcome.InvalidMode? <==> StrictDispatch(first) == Reject
    ensures StrictDispatch(first) == Receive ==> outcome == Received(Sum(results[..LeadingPositive(results)]))
    ensures StrictDispatch(first) == Send ==>
      && outcome.Sent?
      && |outcome.iterations| == Max(cfg.iterations, 0)
      && forall i :: 0 <= i < |outcome.iterations| ==> IterationMeets(cfg, i, OracleAt(oracles, i), outcome.iterations[i])
  {
    if !(first == Some('N') || first == Some('R')) {
      return InvalidMode;
    }
    if first == Some('N') {
      var total, _ := ReceiveUntilEof(results);
      return Received(total);
    }
    var done: seq<IterationResult> := [];
    var i := 0;
    while i < cfg.iterations
      invariant 0 <= i == |done| <= Max(cfg.iterations, 0)
      invariant forall j :: 0 <= j < i ==> IterationMeets(cfg, j, OracleAt(oracles, j), done[j])
    {
      var r := RunIteration(cfg, i, OracleAt(oracles, i));
      done := done + [r];
      i := i + 1;
    }
    outcome := Sent(done);
  }
}
