/** client_side_with_new_feature.py: the client with iterations, sleeps and a fixed volume. An
    unset `--iterations` becomes 1; in reverse mode every iteration receives for `--time`
    seconds into a total reset to 0; in normal mode it sends `--bytes` bytes or full buffers
    for `--time` seconds; a keyboard interrupt ends the current iteration and all later ones. */
module NewFeatureClient {
  import opened Common
  import opened Transfer
  import opened Mode

  datatype Config = Config(reverse: bool, time: int, iterations: Option<int>, sleep: Option<int>, bytes: Option<int>)

  /** `if args.iterations is None: args.iterations = 1`: only an unset count is replaced. */
  function DefaultIterations(iterations: Option<int>): (n: int)
    ensures iterations.None? ==> n == 1
    ensures iterations.Some? ==> n == iterations.value
  {
    match iterations
    case None => 1
    case Some(v) => v
  }

  /** Unlike `args.iterations or 1` of the other clients, an explicit `--iterations 0` runs no
      iteration at all here; both readings agree on every other input. */
  lemma DefaultDiffersOnlyAtZero(iterations: Option<int>)
    ensures Max(DefaultIterations(iterations), 0) == IterationsOrOne(iterations) <==> iterations != Some(0)
  {
  }

  /** `if args.sleep: time.sleep(args.sleep)` after an iteration that was not interrupted. */
  function SleepAfter(cfg: Config, interrupted: bool): (s: int)
    ensures s != 0 <==> !interrupted && Truthy(cfg.sleep)
    ensures s != 0 ==> s == cfg.sleep.value
  {
    if !interrupted && Truthy(cfg.sleep) then cfg.sleep.value else 0
  }

  // ---------------------------------------------------------------------------------------
  // Reverse mode

  function ReceiveOracleAt(oracles: seq<ReceiveOracle>, i: nat): ReceiveOracle
  {
    if i < |oracles| then oracles[i] else ReceiveOracle([], [], [], None)
  }

  /** One reverse iteration: what its receive loop did, `total_data_received` (reset to 0 when
      the iteration starts), and the sleep after it. */
  datatype ReceiveIteration = ReceiveIteration(receipt: Receipt, total: int, slept: int)

  ghost predicate ReceiveMeets(cfg: Config, o: ReceiveOracle, r: ReceiveIteration)
  {
    && ReceiptOf(o, Some(cfg.time as real), r.receipt)
    && r.total == r.receipt.amount
    && r.slept == SleepAfter(cfg, r.receipt.interrupted)
  }

  method ReceiveIterationRun(cfg: Config, o: ReceiveOracle) returns (r: ReceiveIteration)
    ensures ReceiveMeets(cfg, o, r)
  {
    var totalDataReceived := 0;
    var receipt := TimedReceive(o, Some(cfg.time as real));
    totalDataReceived := totalDataReceived + receipt.amount;
    r := ReceiveIteration(receipt, totalDataReceived, SleepAfter(cfg, receipt.interrupted));
  }

  // ---------------------------------------------------------------------------------------
  // Normal mode

  /** One normal iteration's observations: the timed loop's clock readings and the send a
      keyboard interrupt hits, if any. */
  datatype SendOracle = SendOracle(ticks: seq<real>, stop: Option<nat>)

  function SendOracleAt(oracles: seq<SendOracle>, i: nat): SendOracle
  {
    if i < |oracles| then oracles[i] else SendOracle([], None)
  }

  /** One normal iteration: the sends it would make, those made before any interrupt,
      `total_data_sent` (reset to 0 at the start), whether it was interrupted, and the sleep. */
  datatype SendIteration = SendIteration(planned: seq<nat>, sent: seq<nat>, total: int, interrupted: bool, slept: int)

  ghost predicate SendMeets(cfg: Config, o: SendOracle, r: SendIteration)
  {
    && r.planned == (if Truthy(cfg.bytes) then VolumeChunks(cfg.bytes.value, BUFFER_SIZE)
                     else Repeat(LeadingBelow(o.ticks, cfg.time as real), BUFFER_SIZE))
    && r.sent == Cut(r.planned, o.stop)
    && r.interrupted == Interrupted(r.planned, o.stop)
    && r.total == Sum(r.sent)
    && r.slept == SleepAfter(cfg, r.interrupted)
  }

  method SendIterationRun(cfg: Config, o: SendOracle) returns (r: SendIteration)
    ensures SendMeets(cfg, o, r)
  {
    var planned, plannedTotal;
    if Truthy(cfg.bytes) {
      planned, plannedTotal := SendFixedVolume(cfg.bytes.value, BUFFER_SIZE);
    } else {
      planned, plannedTotal := SendChunksUntil(o.ticks, cfg.time as real, BUFFER_SIZE);
    }
    var sent := Cut(planned, o.stop);
    var interrupted := Interrupted(planned, o.stop);
    r := SendIteration(planned, sent, Sum(sent), interrupted, SleepAfter(cfg, interrupted));
  }

  /** A timed iteration sends only full buffers, so its total, interrupted or not, is a whole
      number of buffers; an uninterrupted fixed-volume iteration sends exactly `--bytes`. */
  lemma SendTotals(cfg: Config, o: SendOracle, r: SendIteration)
    requires SendMeets(cfg, o, r)
    ensures !Truthy(cfg.bytes) ==> r.total == |r.sent| * BUFFER_SIZE
    ensures Truthy(cfg.bytes) && !r.interrupted ==> r.total == Max(cfg.bytes.value, 0)
  {
    if Truthy(cfg.bytes) {
      VolumeSum(cfg.bytes.value, BUFFER_SIZE);
    } else {
      assert r.sent == Repeat(|r.sent|, BUFFER_SIZE);
      SumRepeat(|r.sent|, BUFFER_SIZE);
    }
  }

  // ---------------------------------------------------------------------------------------
  // The session

  datatype Outcome = Received(receives: seq<ReceiveIteration>) | Sent(sends: seq<SendIteration>)

  function ReceiveFlags(its: seq<ReceiveIteration>): (f: seq<bool>)
    ensures |f| == |its| && forall i :: 0 <= i < |its| ==> f[i] == its[i].receipt.interrupted
  {
    seq(|its|, i requires 0 <= i < |its| => its[i].receipt.interrupted)
  }

  function SendFlags(its: seq<SendIteration>): (f: seq<bool>)
    ensures |f| == |its| && forall i :: 0 <= i < |its| ==> f[i] == its[i].interrupted
  {
    seq(|its|, i requires 0 <= i < |its| => its[i].interrupted)
  }

  method ReceiveSession(cfg: Config, count: int, oracles: seq<ReceiveOracle>) returns (its: seq<ReceiveIteration>)
    ensures StopsAtInterrupt(Max(count, 0), ReceiveFlags(its))
    ensures forall i :: 0 <= i < |its| ==> ReceiveMeets(cfg, ReceiveOracleAt(oracles, i), its[i])
  {
    its := [];
    var i := 0;
    while i < count
      invariant 0 <= i == |its| <= Max(count, 0)
      invariant forall j :: 0 <= j < i ==> !its[j].receipt.interrupted
      invariant forall j :: 0 <= j < i ==> ReceiveMeets(cfg, ReceiveOracleAt(oracles, j), its[j])
    {
      var r := ReceiveIterationRun(cfg, ReceiveOracleAt(oracles, i));
      its := its + [r];
      i := i + 1;
      if r.receipt.interrupted {
        break;
      }
    }
  }

  method SendSession(cfg: Config, count: int, oracles: seq<SendOracle>) returns (its: seq<SendIteration>)
    ensures StopsAtInterrupt(Max(count, 0), SendFlags(its))
    ensures forall i :: 0 <= i < |its| ==> SendMeets(cfg, SendOracleAt(oracles, i), its[i])
  {
    its := [];
    var i := 0;
    while i < count
      invariant 0 <= i == |its| <= Max(count, 0)
      invariant forall j :: 0 <= j < i ==> !its[j].interrupted
      invariant forall j :: 0 <= j < i ==> SendMeets(cfg, SendOracleAt(oracles, j), its[j])
    {
      var r := SendIterationRun(cfg, SendOracleAt(oracles, i));
      its := its + [r];
      i := i + 1;
      if r.interrupted {
        break;
      }
    }
  }

  /** The script after `connect`: the iteration default, the mode byte, then the iterations. */
  method RunClient(cfg: Config, receives: seq<ReceiveOracle>, sends: seq<SendOracle>)
    returns (mode: seq<char>, outcome: Outcome)
    ensures mode == ClientHandshake(cfg.reverse)
    ensures cfg.reverse <==> outcome.Received?
    ensures outcome.Received? ==>
      && StopsAtInterrupt(Max(DefaultIterations(cfg.iterations), 0), ReceiveFlags(outcome.receives))
      && forall i :: 0 <= i < |outcome.receives| ==> ReceiveMeets(cfg, ReceiveOracleAt(receives, i), outcome.receives[i])
    ensures outcome.Sent? ==>
      && StopsAtInterrupt(Max(DefaultIterations(cfg.iterations), 0), SendFlags(outcome.sends))
      && forall i :: 0 <= i < |outcome.sends| ==> SendMeets(cfg, SendOracleAt(sends, i), outcome.sends[i])
  {
    var iterations := cfg.iterations;
    if iterations.None? {
      iterations := Some(1);
    }
    if cfg.reverse {
      mode := ['R'];
      var its := ReceiveSession(cfg, iterations.value, receives);
      outcome := Received(its);
    } else {
      mode := ['N'];
      var its := SendSession(cfg, iterations.value, sends);
      outcome := Sent(its);
    }
  }
}
