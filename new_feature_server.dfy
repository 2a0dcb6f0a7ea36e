/** server_side_with_new_feature.py: the server that leaves iterations to the client. `'N'`
    receives until end of stream; anything else sends full buffers until the client goes
    away; both loops print a progress line at most once per second. */
module NewFeatureServer {
  import opened Common
  import opened Transfer
  import opened Mode

  /** The loop's observations: the `recv` results (normal mode), the number of sends before
      the send that raises `BrokenPipeError` or `ConnectionResetError` (reverse mode), and one
      throttle check per received chunk or per send, timed from `start_time`. */
  datatype Oracle = Oracle(results: seq<int>, sends: nat, checks: seq<LogCheck>)

  datatype Outcome =
    | Received(total: int, received: nat, logged: seq<bool>)
    | Sent(trace: seq<nat>, total: int, logged: seq<bool>)

  /** Which checks printed a progress line, among the first `n`. */
  ghost predicate LogsOf(o: Oracle, n: nat, logged: seq<bool>)
  {
    && |logged| == Min(n, |o.checks|)
    && forall k :: 0 <= k < |logged| ==> (logged[k] <==> LoggedAt(0.0, o.checks[..|logged|], k))
  }

  /** The server after `accept`. */
  method Serve(first: Option<char>, o: Oracle) returns (outcome: Outcome)
    ensures LenientDispatch(first) == Receive <==> outcome.Received?
    ensures outcome.Received? ==>
      && outcome.received == LeadingPositive(o.results)
      && outcome.total == Sum(o.results[..outcome.received])
      && LogsOf(o, outcome.received, outcome.logged)
    ensures outcome.Sent? ==>
      && outcome.trace == Repeat(o.sends, BUFFER_SIZE)
      && outcome.total == o.sends * BUFFER_SIZE
      && LogsOf(o, o.sends, outcome.logged)
  {
    if first == Some('N') {
      var total, received := ReceiveUntilEof(o.results);
      var logged, logTime := ThrottleLog(0.0, o.checks[..Min(received, |o.checks|)]);
      outcome := Received(total, received, logged);
    } else {
      var trace, total := SendUntilDisconnect(o.sends, BUFFER_SIZE);
      var logged, logTime := ThrottleLog(0.0, o.checks[..Min(o.sends, |o.checks|)]);
      outcome := Sent(trace, total, logged);
    }
  }

  /** With a clock that never runs backwards, two progress lines are at least a second apart. */
  lemma LinesSpaced(o: Oracle, n: nat, logged: seq<bool>, i: nat, j: nat)
    requires LogsOf(o, n, logged)
    requires ClockMonotone(0.0, o.checks)
    requires i < j < |logged| && logged[i] && logged[j]
    ensures o.checks[j].now - o.checks[i].now >= LOG_INTERVAL
  {
    var cs := o.checks[..|logged|];
    assert ClockMonotone(0.0, cs);
    LogsSpaced(0.0, cs, i, j);
  }
}
