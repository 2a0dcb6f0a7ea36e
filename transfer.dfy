/** The transfer loops that every script repeats nearly verbatim: the fixed-volume chunker,
    the timed full-chunk sender, the constant-chunk sender, the endless sender, the receive
    accumulators and the one-second progress-log throttle. A send appends its chunk length
    to a trace; a receive consumes the next `recv` return value of an oracle sequence. */
module Transfer {
  import opened Common

  // ---------------------------------------------------------------------------------------
  // Fixed volume: `while bytes_to_send > 0: chunk_size = min(BUFFER_SIZE, bytes_to_send)`

  /** The chunks the fixed-volume loop sends for `n` bytes from a buffer of `buf` bytes: a
      positive volume takes at least one chunk, and no chunk is empty, so there are never more
      chunks than bytes. */
  function VolumeChunks(n: int, buf: nat): (t: seq<nat>)
    requires buf > 0
    ensures |t| > 0 <==> n > 0
    ensures |t| <= Max(n, 0)
    decreases n
  {
    if n <= 0 then [] else [Min(buf, n)] + VolumeChunks(n - Min(buf, n), buf)
  }

  lemma SumCons(x: int, t: seq<int>)
    ensures Sum([x] + t) == x + Sum(t)
  {
    SumConcat([x], t);
    assert Sum([x]) == Sum([]) + x;
  }

  /** The chunks add up to exactly the requested volume (nothing for a non-positive one). */
  lemma {:induction false} VolumeSum(n: int, buf: nat)
    requires buf > 0
    ensures Sum(VolumeChunks(n, buf)) == Max(n, 0)
    decreases n
  {
    if n > 0 {
      var c := Min(buf, n);
      VolumeSum(n - c, buf);
      SumCons(c, VolumeChunks(n - c, buf));
    }
  }

  /** Every chunk is between 1 and the buffer size, and every chunk but the last is a full buffer. */
  lemma {:induction false} VolumeBounds(n: int, buf: nat)
    requires buf > 0
    ensures forall j :: 0 <= j < |VolumeChunks(n, buf)| ==> 1 <= VolumeChunks(n, buf)[j] <= buf
    ensures forall j :: 0 <= j < |VolumeChunks(n, buf)| - 1 ==> VolumeChunks(n, buf)[j] == buf
    decreases n
  {
    if n > 0 {
      VolumeBounds(n - Min(buf, n), buf);
    }
  }

  /** The volume is so many full buffers plus the last chunk, which is between 1 and `buf`:
      that is, the last chunk is `n mod buf` (a full buffer when the remainder is 0) and there
      are `ceil(n / buf)` chunks. */
  lemma {:induction false} VolumeLast(n: int, buf: nat)
    requires buf > 0 && n > 0
    ensures |VolumeChunks(n, buf)| > 0
    ensures n == (|VolumeChunks(n, buf)| - 1) * buf + VolumeChunks(n, buf)[|VolumeChunks(n, buf)| - 1]
    ensures 1 <= VolumeChunks(n, buf)[|VolumeChunks(n, buf)| - 1] <= buf
    decreases n
  {
    if n > buf {
      VolumeLast(n - buf, buf);
      var t := VolumeChunks(n, buf);
      var rest := VolumeChunks(n - buf, buf);
      assert t == [buf] + rest;
      assert |t| - 1 == |rest| && t[|t| - 1] == rest[|rest| - 1];
      assert (|rest| - 1) * buf + buf == |rest| * buf;
    } else {
      assert VolumeChunks(n, buf) == [n];
    }
  }

  /** A volume of 5000 bytes over a 1024-byte buffer goes as four full chunks and one of 904. */
  lemma VolumeScenario()
    ensures VolumeChunks(5000, 1024) == [1024, 1024, 1024, 1024, 904]
  {
  }

  /** The fixed-volume loop: sends `min(buf, remaining)` until nothing remains. */
  method SendFixedVolume(bytes: int, buf: nat) returns (trace: seq<nat>, total: int)
    requires buf > 0
    ensures trace == VolumeChunks(bytes, buf)
    ensures total == Sum(trace) == Max(bytes, 0)
  {
    trace, total := [], 0;
    var remaining := bytes;
    while remaining > 0
      invariant trace + VolumeChunks(remaining, buf) == VolumeChunks(bytes, buf)
      invariant total == Sum(trace)
      decreases remaining
    {
      var chunk := Min(buf, remaining);
      assert VolumeChunks(remaining, buf) == [chunk] + VolumeChunks(remaining - chunk, buf);
      assert trace + VolumeChunks(remaining, buf) == (trace + [chunk]) + VolumeChunks(remaining - chunk, buf);
      SumAppend(trace, chunk);
      trace, total := trace + [chunk], total + chunk;
      remaining := remaining - chunk;
    }
    assert VolumeChunks(remaining, buf) == [];
    assert trace == VolumeChunks(bytes, buf);
    VolumeSum(bytes, buf);
  }

  // ---------------------------------------------------------------------------------------
  // Timed sending: `while time.time() < end: sendall(DATA[:chunk]); total += chunk`

  /** A timed loop that sends the same `chunk` once per clock reading below `limit`: the full
      buffer in the timed and time-based-ramp loops, `min(BUFFER_SIZE, int(bytes_per_second))`
      in the constant-rate loops. `ticks` are the readings the loop condition sees, relative to
      the instant the deadline was set. */
  method SendChunksUntil(ticks: seq<real>, limit: real, chunk: nat) returns (trace: seq<nat>, total: int)
    ensures trace == Repeat(LeadingBelow(ticks, limit), chunk)
    ensures total == Sum(trace) == |trace| * chunk
  {
    trace, total := [], 0;
    var k := 0;
    while k < |ticks| && ticks[k] < limit
      invariant 0 <= k <= |ticks|
      invariant forall j :: 0 <= j < k ==> ticks[j] < limit
      invariant trace == Repeat(k, chunk)
      invariant total == k * chunk
    {
      trace, total := trace + [chunk], total + chunk;
      k := k + 1;
    }
    LeadingBelowAt(ticks, limit, k);
    SumRepeat(k, chunk);
  }

  /** The constant-rate chunk of the rate-driven scripts, `min(BUFFER_SIZE, int(rate * 1024 * 1024 / 8))`:
      a whole buffer once the rate reaches `buf / 131072` Mbps, else the truncated byte rate. */
  function RateChunk(buf: nat, rateMbps: real): (c: nat)
    requires rateMbps >= 0.0
    ensures c <= buf
    ensures c == buf || c as real <= rateMbps * MBPS_TO_BYTES as real < c as real + 1.0
    ensures c == buf <==> rateMbps * MBPS_TO_BYTES as real >= buf as real
  {
    Min(buf, Trunc(rateMbps * 1024.0 * 1024.0 / 8.0))
  }

  /** The endless sender `while True: sendall(DATA)`, which only a broken pipe or reset
      connection raised by the send after the first `sends` ends. */
  method SendUntilDisconnect(sends: nat, buf: nat) returns (trace: seq<nat>, total: int)
    ensures trace == Repeat(sends, buf)
    ensures total == Sum(trace) == sends * buf
  {
    trace, total := [], 0;
    var k := 0;
    while k < sends
      invariant 0 <= k <= sends
      invariant trace == Repeat(k, buf)
      invariant total == k * buf
    {
      trace, total := trace + [buf], total + buf;
      k := k + 1;
    }
    SumRepeat(sends, buf);
  }

  // ---------------------------------------------------------------------------------------
  // The running-max ramp: full buffers until the deadline, `max_throughput_mbps = max(max, measured)`

  /** `max_throughput_mbps` after the first `k` measurements, starting from 0. */
  /** It bounds every measurement so far, is not negative, and is either the initial 0 or one
      of the measurements. */
  function MaxPrefix(rates: seq<real>, k: nat): (m: real)
    requires k <= |rates|
    ensures m >= 0.0
    ensures forall j :: 0 <= j < k ==> rates[j] <= m
    ensures m == 0.0 || exists j :: 0 <= j < k && m == rates[j]
  {
    if k == 0 then 0.0 else MaxReal(MaxPrefix(rates, k - 1), rates[k - 1])
  }

  /** The running max never decreases. */
  lemma {:induction false} MaxPrefixMonotone(rates: seq<real>, i: nat, k: nat)
    requires i <= k <= |rates|
    ensures MaxPrefix(rates, i) <= MaxPrefix(rates, k)
    decreases k
  {
    if i < k {
      MaxPrefixMonotone(rates, i, k - 1);
    }
  }

  /** A record of the running max after each of the first `n` measurements is sorted. */
  lemma MaxesSorted(rates: seq<real>, maxes: seq<real>)
    requires |maxes| <= |rates|
    requires forall k :: 0 <= k < |maxes| ==> maxes[k] == MaxPrefix(rates, k + 1)
    ensures forall i, j :: 0 <= i <= j < |maxes| ==> maxes[i] <= maxes[j]
  {
    forall i, j | 0 <= i <= j < |maxes|
      ensures maxes[i] <= maxes[j]
    {
      MaxPrefixMonotone(rates, i + 1, j + 1);
    }
  }

  /** The increasing phase of the archived scripts: while the deadline has not passed, send a
      full buffer and fold the throughput measured after it into the running max. `rates` are
      those measurements (one per send; running out of them ends the run). */
  method RunningMaxRamp(ticks: seq<real>, limit: real, rates: seq<real>)
    returns (trace: seq<nat>, total: int, maxes: seq<real>, max: real)
    ensures |trace| == Min(LeadingBelow(ticks, limit), |rates|)
    ensures trace == Repeat(|trace|, BUFFER_SIZE) && total == Sum(trace) == |trace| * BUFFER_SIZE
    ensures |maxes| == |trace| && forall k :: 0 <= k < |maxes| ==> maxes[k] == MaxPrefix(rates, k + 1)
    ensures max == MaxPrefix(rates, |trace|) && max >= 0.0
  {
    trace, total, maxes, max := [], 0, [], 0.0;
    var k := 0;
    while k < |ticks| && ticks[k] < limit && k < |rates|
      invariant 0 <= k <= |ticks| && k <= |rates|
      invariant forall j :: 0 <= j < k ==> ticks[j] < limit
      invariant trace == Repeat(k, BUFFER_SIZE) && total == k * BUFFER_SIZE
      invariant max == MaxPrefix(rates, k)
      invariant |maxes| == k && forall j :: 0 <= j < k ==> maxes[j] == MaxPrefix(rates, j + 1)
    {
      trace, total := trace + [BUFFER_SIZE], total + BUFFER_SIZE;
      var throughput := rates[k];
      max := MaxReal(max, throughput);
      maxes := maxes + [max];
      k := k + 1;
    }
    if k < |ticks| && ticks[k] < limit {
      assert LeadingBelow(ticks, limit) >= k;
    } else {
      LeadingBelowAt(ticks, limit, k);
    }
    SumRepeat(k, BUFFER_SIZE);
  }

  // ---------------------------------------------------------------------------------------
  // Receiving: `data = recv(BUFFER_SIZE); if not data: break; total += len(data)`

  /** The untimed receive loop: accumulates the returned lengths until the first result that
      is 0 (end of stream) or negative (a C error return); an exhausted oracle is end of stream. */
  method ReceiveUntilEof(results: seq<int>) returns (total: int, received: nat)
    ensures received == LeadingPositive(results)
    ensures total == Sum(results[..received])
    ensures total >= received
  {
    total, received := 0, 0;
    while received < |results| && results[received] > 0
      invariant 0 <= received <= |results|
      invariant forall j :: 0 <= j < received ==> results[j] > 0
      invariant total == Sum(results[..received])
      invariant total >= received
    {
      assert results[..received + 1] == results[..received] + [results[received]];
      SumAppend(results[..received], results[received]);
      total := total + results[received];
      received := received + 1;
    }
    LeadingPositiveAt(results, received);
  }

  /** The timed receive loop `while time.time() - start < limit`: it stops at the deadline (if
      there is one), at the first empty read, or when the `recv` call made after the first
      `stop` reads raises a keyboard interrupt, and accumulates the reads before whichever
      comes first. */
  method ReceiveUntil(ticks: seq<real>, deadline: Option<real>, results: seq<int>, stop: Option<nat>)
    returns (total: int, received: nat, interrupted: bool)
    ensures interrupted == (stop.Some? && stop.value < Allowed(ticks, deadline) && stop.value <= LeadingPositive(results))
    ensures received == if interrupted then stop.value else Min(Allowed(ticks, deadline), LeadingPositive(results))
    ensures total == Sum(results[..received])
    ensures total >= received
  {
    total, received, interrupted := 0, 0, false;
    while received < |ticks| && BeforeDeadline(ticks[received], deadline)
      invariant 0 <= received <= |ticks| && received <= |results|
      invariant forall j :: 0 <= j < received ==> BeforeDeadline(ticks[j], deadline) && results[j] > 0
      invariant stop.Some? ==> received <= stop.value
      invariant total == Sum(results[..received])
      invariant total >= received
    {
      if stop == Some(received) {
        interrupted := true;
        break;
      }
      if received >= |results| || results[received] <= 0 {
        break;
      }
      assert results[..received + 1] == results[..received] + [results[received]];
      SumAppend(results[..received], results[received]);
      total := total + results[received];
      received := received + 1;
    }
    ReceiveExit(ticks, deadline, results, stop, received, interrupted);
  }

  /** How the timed receive loop ended, in terms of its oracles: interrupted at a `recv` it was
      still allowed to make, or stopped by the deadline or the first empty read. */
  lemma ReceiveExit(ticks: seq<real>, deadline: Option<real>, results: seq<int>, stop: Option<nat>, received: nat, interrupted: bool)
    requires received <= |ticks| && received <= |results|
    requires forall j :: 0 <= j < received ==> BeforeDeadline(ticks[j], deadline) && results[j] > 0
    requires stop.Some? ==> received <= stop.value
    requires interrupted ==> stop == Some(received) && received < |ticks| && BeforeDeadline(ticks[received], deadline)
    requires !interrupted ==> stop != Some(received) || !(received < |ticks| && BeforeDeadline(ticks[received], deadline))
    requires !interrupted && received < |ticks| && BeforeDeadline(ticks[received], deadline) ==>
      received == |results| || results[received] <= 0
    ensures interrupted == (stop.Some? && stop.value < Allowed(ticks, deadline) && stop.value <= LeadingPositive(results))
    ensures received == if interrupted then stop.value else Min(Allowed(ticks, deadline), LeadingPositive(results))
  {
    var open, nonEmpty := Allowed(ticks, deadline), LeadingPositive(results);
    assert received <= open by {
      if open < received {
        assert false;
      }
    }
    assert received <= nonEmpty by {
      if nonEmpty < received {
        assert false;
      }
    }
    if received < |ticks| && BeforeDeadline(ticks[received], deadline) {
      assert received < open;
      if interrupted {
        assert stop.value == received;
      } else {
        LeadingPositiveAt(results, received);
        assert nonEmpty == received;
      }
    } else {
      AllowedAt(ticks, deadline, received);
      assert open == received && !interrupted;
    }
  }

  /** One timed receive phase's observations: the loop-condition clock readings (relative to the
      phase's `start_time`, which is also the first `log_time`), the `recv` results, one
      throttle check per received chunk, and the `recv` call a keyboard interrupt hits, if any. */
  datatype ReceiveOracle = ReceiveOracle(ticks: seq<real>, results: seq<int>, checks: seq<LogCheck>, stop: Option<nat>)

  /** What a timed receive phase did: the reads it accumulated and the bytes they carried,
      which of them printed a progress line, and whether it was interrupted. */
  datatype Receipt = Receipt(received: nat, amount: int, logged: seq<bool>, interrupted: bool)

  ghost predicate ReceiptOf(o: ReceiveOracle, deadline: Option<real>, r: Receipt)
  {
    var open := Allowed(o.ticks, deadline);
    var nonEmpty := LeadingPositive(o.results);
    && r.interrupted == (o.stop.Some? && o.stop.value < open && o.stop.value <= nonEmpty)
    && r.received == (if r.interrupted then o.stop.value else Min(open, nonEmpty))
    && r.amount == Sum(o.results[..r.received])
    && |r.logged| == Min(r.received, |o.checks|)
    && (forall k :: 0 <= k < |r.logged| ==> (r.logged[k] <==> LoggedAt(0.0, o.checks[..|r.logged|], k)))
  }

  /** The receive phase with its progress log: one throttle check after every accumulated read. */
  method TimedReceive(o: ReceiveOracle, deadline: Option<real>) returns (r: Receipt)
    ensures ReceiptOf(o, deadline, r)
  {
    var amount, received, interrupted := ReceiveUntil(o.ticks, deadline, o.results, o.stop);
    var logged, logTime := ThrottleLog(0.0, o.checks[..Min(received, |o.checks|)]);
    r := Receipt(received, amount, logged, interrupted);
  }

  /** Without loss, what a receiver accumulates from a peer that sent `trace` and closed the
      connection is exactly the sender's total. */
  lemma NoLossRoundTrip(trace: seq<nat>)
    requires forall j :: 0 <= j < |trace| ==> trace[j] > 0
    ensures LeadingPositive(trace + [0]) == |trace|
    ensures (trace + [0])[..|trace|] == trace
  {
    LeadingPositiveAt(trace + [0], |trace|);
  }

  // ---------------------------------------------------------------------------------------
  // The progress-log throttle: `if time.time() - log_time >= LOG_INTERVAL: ...; log_time = time.time()`

  /** One throttle check: the reading compared against `log_time`, and the later reading that
      becomes the new `log_time` if a line is logged. */
  datatype LogCheck = LogCheck(now: real, reanchor: real)

  predicate ShouldLog(logTime: real, now: real)
  {
    now - logTime >= LOG_INTERVAL
  }

  /** The value of `log_time` before check `i`, starting from `start`. */
  function AnchorBefore(start: real, checks: seq<LogCheck>, i: nat): real
    requires i <= |checks|
  {
    if i == 0 then start
    else
      var prev := AnchorBefore(start, checks, i - 1);
      if ShouldLog(prev, checks[i - 1].now) then checks[i - 1].reanchor else prev
  }

  predicate LoggedAt(start: real, checks: seq<LogCheck>, i: nat)
    requires i < |checks|
  {
    ShouldLog(AnchorBefore(start, checks, i), checks[i].now)
  }

  /** The clock never goes backwards across the throttle's readings. */
  predicate ClockMonotone(start: real, checks: seq<LogCheck>)
  {
    && (|checks| > 0 ==> start <= checks[0].now)
    && (forall i :: 0 <= i < |checks| ==> checks[i].now <= checks[i].reanchor)
    && (forall i :: 0 <= i < |checks| - 1 ==> checks[i].reanchor <= checks[i + 1].now)
  }

  /** The throttle as its loops run it: one check per received or sent chunk. */
  method ThrottleLog(start: real, checks: seq<LogCheck>) returns (logged: seq<bool>, logTime: real)
    ensures |logged| == |checks|
    ensures forall i :: 0 <= i < |checks| ==> (logged[i] <==> LoggedAt(start, checks, i))
    ensures logTime == AnchorBefore(start, checks, |checks|)
  {
    logged, logTime := [], start;
    var i := 0;
    while i < |checks|
      invariant 0 <= i <= |checks|
      invariant |logged| == i
      invariant logTime == AnchorBefore(start, checks, i)
      invariant forall j :: 0 <= j < i ==> (logged[j] <==> LoggedAt(start, checks, j))
    {
      var fire := checks[i].now - logTime >= LOG_INTERVAL;
      assert fire == LoggedAt(start, checks, i);
      if fire {
        logTime := checks[i].reanchor;
      }
      logged := logged + [fire];
      i := i + 1;
    }
  }

  /** After a logged check, `log_time` never falls back before that check's re-anchoring reading. */
  lemma {:induction false} AnchorAfterLog(start: real, checks: seq<LogCheck>, i: nat, k: nat)
    requires ClockMonotone(start, checks)
    requires i < k <= |checks|
    requires LoggedAt(start, checks, i)
    ensures AnchorBefore(start, checks, k) >= checks[i].reanchor
    decreases k
  {
    if k > i + 1 {
      AnchorAfterLog(start, checks, i, k - 1);
      assert checks[k - 2].reanchor <= checks[k - 1].now;
    }
  }

  /** Two logged lines are at least LOG_INTERVAL apart. */
  lemma LogsSpaced(start: real, checks: seq<LogCheck>, i: nat, j: nat)
    requires ClockMonotone(start, checks)
    requires i < j < |checks|
    requires LoggedAt(start, checks, i) && LoggedAt(start, checks, j)
    ensures checks[j].now - checks[i].now >= LOG_INTERVAL
  {
    AnchorAfterLog(start, checks, i, j);
  }
}
