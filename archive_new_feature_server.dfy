/** archive/server_side_with_new_feature.py: the archived server with iterations, sleeps and a
    fixed volume. `'N'` receives until end of stream; anything else runs `args.iterations or 1`
    reverse iterations that send `--bytes` bytes or full buffers for `--time` seconds, with the
    total reset per iteration; a broken pipe or reset connection ends all iterations. */
module ArchiveNewFeatureServer {
  import opened Common
  import opened Transfer
  import opened Mode

  /** `--iterations` defaults to 1 and `--sleep` to 0; `--bytes` and `--time` may be unset. */
  datatype Config = Config(iterations: int, sleep: int, bytes: Option<int>, time: Option<int>)

  /** One reverse iteration's observations: the timed loop's clock readings and the send that
      raises `BrokenPipeError` or `ConnectionResetError`, if any. */
  datatype Oracle = Oracle(ticks: seq<real>, disconnect: Option<nat>)

  function OracleAt(oracles: seq<Oracle>, i: nat): Oracle
  {
    if i < |oracles| then oracles[i] else Oracle([], None)
  }

  /** One reverse iteration: the sends it would make, those made before any disconnect,
      `total_data_sent` (reset to 0 at the start), whether the client disconnected, and the
      seconds slept after it (0 for none). */
  datatype IterationResult = IterationResult(planned: seq<nat>, sent: seq<nat>, total: int, disconnected: bool, slept: int)

  /** Without `--bytes` the timed loop compares the elapsed time with `args.time`; when that is
      unset the comparison raises `TypeError`, which nothing catches. */
  predicate RaisesTypeError(cfg: Config)
  {
    !Truthy(cfg.bytes) && cfg.time.None?
  }

  ghost predicate IterationMeets(cfg: Config, o: Oracle, r: IterationResult)
    requires !RaisesTypeError(cfg)
  {
    && r.planned == (if Truthy(cfg.bytes) then VolumeChunks(cfg.bytes.value, BUFFER_SIZE)
                     else Repeat(LeadingBelow(o.ticks, cfg.time.value as real), BUFFER_SIZE))
    && r.sent == Cut(r.planned, o.disconnect)
    && r.disconnected == Interrupted(r.planned, o.disconnect)
    && r.total == Sum(r.sent)
    && r.slept == (if !r.disconnected && cfg.sleep != 0 then cfg.sleep else 0)
  }

  method RunIteration(cfg: Config, o: Oracle) returns (r: IterationResult)
    requires !RaisesTypeError(cfg)
    ensures IterationMeets(cfg, o, r)
  {
    var planned, plannedTotal;
    if Truthy(cfg.bytes) {
      planned, plannedTotal := SendFixedVolume(cfg.bytes.value, BUFFER_SIZE);
    } else {
      planned, plannedTotal := SendChunksUntil(o.ticks, cfg.time.value as real, BUFFER_SIZE);
    }
    var sent := Cut(planned, o.disconnect);
    var disconnected := Interrupted(planned, o.disconnect);
    var slept := 0;
    if !disconnected && cfg.sleep != 0 {
      slept := cfg.sleep;
    }
    r := IterationResult(planned, sent, Sum(sent), disconnected, slept);
  }

  /** Fixed-volume chunks add up to `--bytes` unless the client disconnects; timed sends are
      whole buffers, so a timed total is a multiple of the buffer size either way. */
  lemma IterationTotals(cfg: Config, o: Oracle, r: IterationResult)
    requires !RaisesTypeError(cfg) && IterationMeets(cfg, o, r)
    ensures Truthy(cfg.bytes) && !r.disconnected ==> r.total == Max(cfg.bytes.value, 0)
    ensures !Truthy(cfg.bytes) ==> r.total == |r.sent| * BUFFER_SIZE
  {
    if Truthy(cfg.bytes) {
      VolumeSum(cfg.bytes.value, BUFFER_SIZE);
    } else {
      assert r.sent == Repeat(|r.sent|, BUFFER_SIZE);
      SumRepeat(|r.sent|, BUFFER_SIZE);
    }
  }

  datatype Outcome = Received(total: int) | Sent(iterations: seq<IterationResult>) | Crashed

  /** The server after `accept`. */
  method Serve(cfg: Config, first: Option<char>, results: seq<int>, oracles: seq<Oracle>) returns (outcome: Outcome)
    ensures LenientDispatch(first) == Receive ==> outcome == Received(Sum(results[..LeadingPositive(results)]))
    ensures outcome.Crashed? <==>
      LenientDispatch(first) == Send && RaisesTypeError(cfg) && IterationsOrOne(Some(cfg.iterations)) > 0
    ensures outcome.Sent? ==>
      var its := outcome.iterations;
      && (|its| > 0 ==> !RaisesTypeError(cfg))
      && |its| <= IterationsOrOne(Some(cfg.iterations))
      && (|its| < IterationsOrOne(Some(cfg.iterations)) ==> |its| > 0 && its[|its| - 1].disconnected)
      && (forall i :: 0 <= i < |its| - 1 ==> !its[i].disconnected)
      && (forall i :: 0 <= i < |its| ==> IterationMeets(cfg, OracleAt(oracles, i), its[i]))
  {
    if first == Some('N') {
      var total, _ := ReceiveUntilEof(results);
      return Received(total);
    }
    var count := IterationsOrOne(Some(cfg.iterations));
    if count > 0 && RaisesTypeError(cfg) {
      return Crashed;
    }
    var done: seq<IterationResult> := [];
    var i := 0;
    while i < count
      invariant 0 <= i == |done| <= count
      invariant count > 0 ==> !RaisesTypeError(cfg)
      invariant forall j :: 0 <= j < i ==> !done[j].disconnected
      invariant forall j :: 0 <= j < i ==> IterationMeets(cfg, OracleAt(oracles, j), done[j])
    {
      var r := RunIteration(cfg, OracleAt(oracles, i));
      done := done + [r];
      i := i + 1;
      if r.disconnected {
        break;
      }
    }
    outcome := Sent(done);
  }
}
