/** client_side.py: the first client. It writes the mode byte, then for `--time` seconds either
    receives (reverse) or sends full buffers, printing a progress line at most once per
    second; a keyboard interrupt ends the transfer early. */
module SimpleClient {
  import opened Common
  import opened Transfer
  import opened Mode

  /** Normal mode's observations: the loop-condition clock readings (relative to
      `start_time`), one throttle check per send, and the send a keyboard interrupt hits. */
  datatype SendOracle = SendOracle(ticks: seq<real>, checks: seq<LogCheck>, stop: Option<nat>)

  /** Normal mode's result: the sends made, `total_data_sent`, which sends printed a progress
      line, and whether it was interrupted. */
  datatype Sending = Sending(sent: seq<nat>, total: int, logged: seq<bool>, interrupted: bool)

  ghost predicate SendingOf(time: int, o: SendOracle, r: Sending)
  {
    var planned := Repeat(LeadingBelow(o.ticks, time as real), BUFFER_SIZE);
    && r.sent == Cut(planned, o.stop)
    && r.interrupted == Interrupted(planned, o.stop)
    && r.total == |r.sent| * BUFFER_SIZE
    && |r.logged| == Min(|r.sent|, |o.checks|)
    && (forall k :: 0 <= k < |r.logged| ==> (r.logged[k] <==> LoggedAt(0.0, o.checks[..|r.logged|], k)))
  }

  /** `while time.time() - start_time < DOWNLOAD_DURATION: sendall(DATA); total += len(DATA)`,
      then the throttle check. */
  method TimedSend(time: int, o: SendOracle) returns (r: Sending)
    ensures SendingOf(time, o, r)
  {
    var planned, plannedTotal := SendChunksUntil(o.ticks, time as real, BUFFER_SIZE);
    var sent := Cut(planned, o.stop);
    assert sent == Repeat(|sent|, BUFFER_SIZE);
    SumRepeat(|sent|, BUFFER_SIZE);
    var logged, logTime := ThrottleLog(0.0, o.checks[..Min(|sent|, |o.checks|)]);
    r := Sending(sent, Sum(sent), logged, Interrupted(planned, o.stop));
  }

  /** The sent total is the sum of the sends actually made, all full buffers, and no more
      than the deadline allows. */
  lemma SentTotal(time: int, o: SendOracle, r: Sending)
    requires SendingOf(time, o, r)
    ensures r.total == Sum(r.sent)
    ensures |r.sent| <= LeadingBelow(o.ticks, time as real)
    ensures !r.interrupted ==> |r.sent| == LeadingBelow(o.ticks, time as real)
  {
    assert r.sent == Repeat(|r.sent|, BUFFER_SIZE);
    SumRepeat(|r.sent|, BUFFER_SIZE);
  }

  datatype Outcome = Received(receipt: Receipt) | Sent(sending: Sending)

  /** The script after `connect`. */
  method RunClient(reverse: bool, time: int, receive: ReceiveOracle, send: SendOracle)
    returns (mode: seq<char>, outcome: Outcome)
    ensures mode == ClientHandshake(reverse)
    ensures reverse ==> outcome.Received? && ReceiptOf(receive, Some(time as real), outcome.receipt)
    ensures !reverse ==> outcome.Sent? && SendingOf(time, send, outcome.sending)
  {
    if reverse {
      mode := ['R'];
      var receipt := TimedReceive(receive, Some(time as real));
      outcome := Received(receipt);
    } else {
      mode := ['N'];
      var sending := TimedSend(time, send);
      outcome := Sent(sending);
    }
  }
}
