/** archive/client_side_with_new_feature.py: the archived client with iterations, sleeps and a
    fixed volume. Its receive and timed-send loops share one continuation condition; the
    reverse total runs on across iterations; a keyboard interrupt ends the current iteration
    and all later ones. */
module ArchiveNewFeatureClient {
  import opened Common
  import opened Transfer
  import opened Mode
  import opened Sessions

  /** `--time` has no default here, so it may be unset. */
  datatype Config = Config(reverse: bool, time: Option<int>, iterations: Option<int>, sleep: Option<int>, bytes: Option<int>)

  // ---------------------------------------------------------------------------------------
  // The continuation condition

  /** The condition `(iterations and elapsed < time) or (not iterations and (time is None or
      elapsed < time))` as written, evaluated the way Python evaluates it: `None` stands for
      the `TypeError` that comparing a float with `None` raises. */
  function ContinueAsWritten(iterations: Option<int>, time: Option<int>, elapsed: real): (r: Option<bool>)
    ensures r.Some? && time.Some? ==> r.value == (elapsed < time.value as real)
    ensures r.Some? && time.None? ==> r.value
  {
    if Truthy(iterations) then
      (if time.None? then None else Some(elapsed < time.value as real))
    else
      Some(time.None? || elapsed < time.value as real)
  }

  /** As written, the condition raises exactly when an iteration count is given without `--time`. */
  lemma AsWrittenCrashes(iterations: Option<int>, time: Option<int>, elapsed: real)
    ensures ContinueAsWritten(iterations, time, elapsed).None? <==> Truthy(iterations) && time.None?
  {
  }

  /** `--iterations 2` without `--time` stops the first loop check with a `TypeError`. */
  lemma TypeErrorWitness()
    ensures ContinueAsWritten(Some(2), None, 0.0) == None
  {
  }

  /** The deadline the condition evidently intends: `--time` seconds if given, none otherwise. */
  function Deadline(time: Option<int>): (d: Option<real>)
    ensures d.None? <==> time.None?
    ensures d.Some? ==> d.value == time.value as real
  {
    match time
    case None => None
    case Some(t) => Some(t as real)
  }

  /** The corrected condition: an unset `--time` means no time limit whatever the iteration
      count, as the second half of the written condition already says. */
  function ContinueCorrected(time: Option<int>, elapsed: real): (b: bool)
    ensures b <==> BeforeDeadline(elapsed, Deadline(time))
  {
    time.None? || elapsed < time.value as real
  }

  /** Wherever the written condition does not raise, it agrees with the corrected one. */
  lemma CorrectedAgrees(iterations: Option<int>, time: Option<int>, elapsed: real)
    ensures ContinueAsWritten(iterations, time, elapsed).Some? ==>
      ContinueAsWritten(iterations, time, elapsed).value == ContinueCorrected(time, elapsed)
  {
  }

  /** `if args.iterations and args.sleep: time.sleep(args.sleep)` after an iteration that was
      not interrupted; 0 stands for no sleep. */
  function SleepAfter(cfg: Config, interrupted: bool): (s: int)
    ensures s != 0 <==> !interrupted && Truthy(cfg.iterations) && Truthy(cfg.sleep)
    ensures s != 0 ==> s == cfg.sleep.value
  {
    if !interrupted && Truthy(cfg.iterations) && Truthy(cfg.sleep) then cfg.sleep.value else 0
  }

  // ---------------------------------------------------------------------------------------
  // Normal mode

  /** The timed send `while <condition>: sendall(DATA)`, with the corrected condition. */
  method SendWhileContinuing(ticks: seq<real>, time: Option<int>) returns (trace: seq<nat>, total: int)
    ensures trace == Repeat(Allowed(ticks, Deadline(time)), BUFFER_SIZE)
    ensures total == Sum(trace) == |trace| * BUFFER_SIZE
  {
    trace, total := [], 0;
    var k := 0;
    while k < |ticks| && ContinueCorrected(time, ticks[k])
      invariant 0 <= k <= |ticks|
      invariant forall j :: 0 <= j < k ==> BeforeDeadline(ticks[j], Deadline(time))
      invariant trace == Repeat(k, BUFFER_SIZE) && total == k * BUFFER_SIZE
    {
      trace, total := trace + [BUFFER_SIZE], total + BUFFER_SIZE;
      k := k + 1;
    }
    AllowedAt(ticks, Deadline(time), k);
    SumRepeat(k, BUFFER_SIZE);
  }

  /** One normal iteration's observations: the loop-condition clock readings and the send a
      keyboard interrupt hits, if any. */
  datatype SendOracle = SendOracle(ticks: seq<real>, stop: Option<nat>)

  function SendOracleAt(oracles: seq<SendOracle>, i: nat): SendOracle
  {
    if i < |oracles| then oracles[i] else SendOracle([], None)
  }

  /** One normal iteration: the sends it would make, those made before any interrupt,
      `total_data_sent` (reset to 0 at the start), whether it was interrupted, and the sleep. */
  datatype SendIteration = SendIteration(planned: seq<nat>, sent: seq<nat>, total: int, interrupted: bool, slept: int)

  ghost predicate SendMeets(cfg: Config, o: SendOracle, r: SendIteration)
  {
    && r.planned == (if Truthy(cfg.bytes) then VolumeChunks(cfg.bytes.value, BUFFER_SIZE)
                     else Repeat(Allowed(o.ticks, Deadline(cfg.time)), BUFFER_SIZE))
    && r.sent == Cut(r.planned, o.stop)
    && r.interrupted == Interrupted(r.planned, o.stop)
    && r.total == Sum(r.sent)
    && r.slept == SleepAfter(cfg, r.interrupted)
  }

  method SendIterationRun(cfg: Config, o: SendOracle) returns (r: SendIteration)
    ensures SendMeets(cfg, o, r)
  {
    var planned, plannedTotal;
    if Truthy(cfg.bytes) {
      planned, plannedTotal := SendFixedVolume(cfg.bytes.value, BUFFER_SIZE);
    } else {
      planned, plannedTotal := SendWhileContinuing(o.ticks, cfg.time);
    }
    var sent := Cut(planned, o.stop);
    var interrupted := Interrupted(planned, o.stop);
    r := SendIteration(planned, sent, Sum(sent), interrupted, SleepAfter(cfg, interrupted));
  }

  /** An uninterrupted fixed-volume iteration sends exactly `--bytes`; without `--time` and
      `--bytes` the timed send runs until the clock readings end. */
  lemma SendTotals(cfg: Config, o: SendOracle, r: SendIteration)
    requires SendMeets(cfg, o, r)
    ensures Truthy(cfg.bytes) && !r.interrupted ==> r.total == Max(cfg.bytes.value, 0)
    ensures !Truthy(cfg.bytes) && cfg.time.None? ==> |r.planned| == |o.ticks|
  {
    if Truthy(cfg.bytes) {
      VolumeSum(cfg.bytes.value, BUFFER_SIZE);
    }
  }

  function SendFlags(its: seq<SendIteration>): (f: seq<bool>)
    ensures |f| == |its| && forall i :: 0 <= i < |its| ==> f[i] == its[i].interrupted
  {
    seq(|its|, i requires 0 <= i < |its| => its[i].interrupted)
  }

  method SendSession(cfg: Config, oracles: seq<SendOracle>) returns (its: seq<SendIteration>)
    ensures StopsAtInterrupt(IterationsOrOne(cfg.iterations), SendFlags(its))
    ensures forall i :: 0 <= i < |its| ==> SendMeets(cfg, SendOracleAt(oracles, i), its[i])
  {
    var count := IterationsOrOne(cfg.iterations);
    its := [];
    var i := 0;
    while i < count
      invariant 0 <= i == |its| <= count
      invariant forall j :: 0 <= j < i ==> !its[j].interrupted
      invariant forall j :: 0 <= j < i ==> SendMeets(cfg, SendOracleAt(oracles, j), its[j])
    {
      var r := SendIterationRun(cfg, SendOracleAt(oracles, i));
      its := its + [r];
      i := i + 1;
      if r.interrupted {
        break;
      }
    }
  }

  // ---------------------------------------------------------------------------------------
  // The session

  /** `Crashed`: the first check of a loop condition raised `TypeError`, which nothing
      catches, so the script ends there with nothing transferred. */
  datatype Outcome = Received(receives: seq<ReceiveIteration>) | Sent(sends: seq<SendIteration>) | Crashed

  /** The runs whose loop condition is checked at all: at least one iteration, and a reverse
      receive or a normal timed send (a `--bytes` send never evaluates the condition). */
  predicate ChecksCondition(cfg: Config)
  {
    IterationsOrOne(cfg.iterations) > 0 && (cfg.reverse || !Truthy(cfg.bytes))
  }

  /** Where the condition is checked and does not raise, the written condition is the corrected
      one at every elapsed time: the loops below run under the corrected condition exactly
      where the script does not crash. */
  lemma WrittenIsCorrected(cfg: Config, elapsed: real)
    requires ChecksCondition(cfg)
    requires !(Truthy(cfg.iterations) && cfg.time.None?)
    ensures ContinueAsWritten(cfg.iterations, cfg.time, elapsed) == Some(ContinueCorrected(cfg.time, elapsed))
  {
    AsWrittenCrashes(cfg.iterations, cfg.time, elapsed);
    CorrectedAgrees(cfg.iterations, cfg.time, elapsed);
  }

  /** The script after `connect`: the mode byte, then `range(args.iterations or 1)` iterations.
      With an iteration count but no `--time`, the first check of the receive loop's or the
      timed send's condition raises `TypeError`; every other run goes through the loops, whose
      condition is then the corrected one. */
  method RunClient(cfg: Config, receives: seq<ReceiveOracle>, sends: seq<SendOracle>)
    returns (mode: seq<char>, outcome: Outcome)
    ensures mode == ClientHandshake(cfg.reverse)
    ensures outcome.Crashed? <==> ChecksCondition(cfg) && ContinueAsWritten(cfg.iterations, cfg.time, 0.0).None?
    ensures outcome.Crashed? <==> Truthy(cfg.iterations) && cfg.iterations.value > 0 && cfg.time.None? && (cfg.reverse || !Truthy(cfg.bytes))
    ensures !outcome.Crashed? ==> (cfg.reverse <==> outcome.Received?)
    ensures outcome.Received? ==>
      && StopsAtInterrupt(IterationsOrOne(cfg.iterations), ReceiveFlags(outcome.receives))
      && Accumulates(outcome.receives)
      && forall i :: 0 <= i < |outcome.receives| ==>
           && ReceiptOf(ReceiveOracleAt(receives, i), Deadline(cfg.time), outcome.receives[i].receipt)
           && outcome.receives[i].slept == SleepAfter(cfg, outcome.receives[i].receipt.interrupted)
    ensures outcome.Sent? ==>
      && StopsAtInterrupt(IterationsOrOne(cfg.iterations), SendFlags(outcome.sends))
      && forall i :: 0 <= i < |outcome.sends| ==> SendMeets(cfg, SendOracleAt(sends, i), outcome.sends[i])
  {
    mode := [if cfg.reverse then 'R' else 'N'];
    AsWrittenCrashes(cfg.iterations, cfg.time, 0.0);
    if ChecksCondition(cfg) && ContinueAsWritten(cfg.iterations, cfg.time, 0.0).None? {
      outcome := Crashed;
    } else if cfg.reverse {
      var its := CumulativeReceive(IterationsOrOne(cfg.iterations), Deadline(cfg.time), SleepAfter(cfg, false), receives);
      outcome := Received(its);
    } else {
      var its := SendSession(cfg, sends);
      outcome := Sent(its);
    }
  }
}
