# NetPerfTestTool in Dafny

NetPerfTestTool is a set of iperf3-like TCP throughput scripts, in Python and C, plus a pair
of HTTP video-chunk scripts. A client connects and writes a one-byte mode, `'N'` or `'R'`.
- In normal mode (`'N'`) the client sends and the server counts what it receives.
- In reverse mode (`'R'`) the server sends and the client counts.

The transfers come in several shapes:
- a fixed volume sent in `min(BUFFER_SIZE, remaining)` chunks;
- full 128 KiB buffers sent until a deadline;
- an "increasing phase" followed by a "constant-rate phase".

The increasing phase runs up to a byte target, a measured rate or a time limit. The
constant-rate phase repeats a rate-derived chunk. The scripts also run several iterations
with sleeps in between. Progress lines are throttled to one per second, and `recv` is read
until end of stream.

This project models every script of the core. Each script is a module; shared pieces are in
`Common`, `Transfer`, `Mode` and `Sessions`.
- Each transfer loop is an imperative method with loop invariants. It is proved against a
  specification function of its oracle: the clock readings its loop condition sees, the
  `recv` results, and the send at which an exception strikes.
- Each script's top level is a method. Its `ensures` fixes the outcome of every iteration
  through a per-script predicate (`IterationMeets`, `SendMeets`, `ReceiptOf`, ...).
- Lemmas prove what the scripts promise:
  - the fixed-volume chunks add up to exactly `--bytes`;
  - capped ramps never overshoot their target;
  - the pacing sleep lies in (0, interval];
  - progress lines are at least a second apart;
  - the running maximum never decreases;
  - both kinds of server agree with the client's mode byte;
  - an iteration loop stops at the first interrupt;
  - the C rate escalation compounds, while the Python one is linear;
  - video chunks tile each segment;
  - the HTTP reply carries exactly `Content-Length` bytes.

Modelling conventions:
- Time is an oracle. A timed loop takes the sequence of readings its condition sees, relative
  to the phase start, and runs while a reading is below the limit. When a loop runs out of
  readings, that is the end of the run (the oracle's horizon bounds every unbounded loop).
- `recv` results are a sequence of integers: a value of 0 or less, or the end of the
  sequence, is end of stream (a caught `ConnectionResetError` from `recv` ends the loop the same way).
- An exception that a script catches is an optional stop index: `KeyboardInterrupt` in the
  clients that catch it, and `BrokenPipeError`/`ConnectionResetError` in the servers that
  catch them. When the (k+1)-th send raises, only k sends happen. Exceptions a script does
  not catch are listed under "Left out".
- Measured throughputs are oracle reals, never computed from floats.
- Python's `int()` on a float and C's conversion of a double are both truncation toward zero
  (`Common.Trunc`).
- C's 32-bit `int` arithmetic is modelled where it can overflow: `target_rate * 1024 * 1024`.

Some behaviour of the scripts is easy to misread:
- `server_side.c` picks its direction with its own `-r` flag and never reads the client's mode
  byte.
- In `advanced_client.py` the measured rate `max_throughput_mbps` is one variable for the
  whole run. It carries over between iterations, and the time-based phase never updates it,
  so its constant phase uses the rate carried in (0 on the first iteration, giving empty
  chunks).
- In the archived rate server, `--bytes` and `--time` are parsed but never used.
- `client_side_with_new_feature.py` replaces only an unset iteration count by 1, so
  `--iterations 0` runs no iteration. The other clients use `args.iterations or 1`, which
  runs once.

## Model

| member | source | states |
|---|---|---|
| Common.Trunc | advanced_server.py:89 | `int()` of a float lies within one of it, on the side of zero |
| Common.CDiv | server_side.c:152 | C division by a positive divisor truncates toward zero: for a non-negative dividend the quotient times the divisor lies within one divisor below it, for a negative one within one divisor above it |
| Common.CTargetBytes | server_side.c:153 | without overflow, `(target_rate * 1024 * 1024) / 8` is `target_rate * 131072` and fits in an `int` |
| Common.TargetNoOverflow | server_side.c:153 | the product fits in 32 bits exactly for rates -2048..2047 |
| Common.LeadingBelow | advanced_server.py:168-171 | a `while now < limit` loop runs once per leading reading below the limit, and the next reading is at or past it |
| Common.MonotoneLeadingBelow | advanced_server.py:168-171 | with a monotone clock, a reading is below the limit exactly when it comes before the loop's exit |
| Common.Allowed | archive/client_side_with_new_feature.py:41 | a loop under an optional deadline runs while readings are before it; without a deadline it runs through all the readings |
| Common.LeadingPositive | advanced_server.py:50-54 | a `recv ... if not data: break` loop accumulates exactly the leading positive results |
| Common.Cut | archive/server_side_with_new_feature.py:84-86 | the sends made are a prefix of the planned ones, exactly the first k when the (k+1)-th send raises and all of them otherwise |
| Transfer.VolumeChunks | advanced_server.py:157-164 | a positive `--bytes` gives at least one chunk and a non-positive one none, and there are never more chunks than bytes |
| Transfer.VolumeSum | advanced_server.py:157-164 | the fixed-volume chunks add up to exactly `--bytes`, or to nothing for a non-positive value |
| Transfer.VolumeBounds | advanced_server.py:160-164 | every chunk is 1..BUFFER_SIZE bytes and all but the last are full buffers |
| Transfer.VolumeLast | client_side_with_new_feature.py:77-82 | the volume is whole buffers plus a final chunk of 1..BUFFER_SIZE bytes |
| Transfer.VolumeScenario | advanced_client.py:103-108 | 5000 bytes over a 1024-byte buffer go as four full chunks and one of 904 |
| Transfer.SendFixedVolume | advanced_client.py:103-108 | the loop sends exactly the fixed-volume chunks, and its total is `max(bytes, 0)` |
| Transfer.SendChunksUntil | advanced_server.py:166-171 | a timed loop sends one chunk per reading before the deadline, and its total is that count times the chunk |
| Transfer.RateChunk | archive/server_side_with_sleep_and_constant_rate.py:78-81 | `min(BUFFER_SIZE, int(rate * 2^20 / 8))` is at most a buffer; it is a whole buffer exactly when the rate's bytes reach one, and otherwise within one byte below them |
| Transfer.SendUntilDisconnect | server_side_with_new_feature.py:64-67 | `while True: sendall(DATA)` sends full buffers until the send that raises, and totals them |
| Transfer.MaxPrefix | archive/server_side_with_sleep_and_constant_rate.py:70 | the running max is non-negative, bounds every measurement so far, and is 0 or one of them |
| Transfer.MaxPrefixMonotone | archive/server_side_with_sleep_and_constant_rate.py:70 | the running max never decreases |
| Transfer.MaxesSorted | archive/server_side_with_sleep_and_constant_rate.py:64-70 | the running maxes recorded after each ramp send form a non-decreasing sequence |
| Transfer.RunningMaxRamp | archive/server_side_with_sleep_and_constant_rate.py:64-70 | the increasing phase sends full buffers until the deadline or the last measurement, and records after each send the running max of the measurements so far (`MaxPrefix`), which is non-negative |
| Transfer.ReceiveUntilEof | server_side.c:225-232 | the receive loop accumulates exactly the leading positive `recv` results, and the total is their sum |
| Transfer.ReceiveUntil | client_side.py:37-50 | the timed receive stops at the deadline, at end of stream or at an interrupt; it counts the reads it made, the total is their sum, and it reports whether it was interrupted |
| Transfer.TimedReceive | client_side.py:39-50 | the timed receive and its progress throttle meet `ReceiptOf`: reads, bytes, interrupt and logged lines |
| Transfer.NoLossRoundTrip | server_side_with_new_feature.py:37-41 | a receiver reading a sender's chunks followed by end of stream accumulates exactly those chunks |
| Transfer.ThrottleLog | client_side.py:46-50 | a check prints exactly when a second has passed since the last anchor, and re-anchors `log_time` when it does |
| Transfer.AnchorAfterLog | client_side.py:46-50 | after a logged check, `log_time` never falls back before its re-anchoring reading |
| Transfer.LogsSpaced | client_side.py:46-50 | with a monotone clock, two printed progress lines are at least `LOG_INTERVAL` apart |
| Mode.ClientModeByte | advanced_client.py:37 | the client writes `'R'` exactly in reverse mode, and `'N'` otherwise |
| Mode.ClientHandshake | client_side.c:121-122 | the handshake is exactly one byte, and it is `'R'` exactly in reverse mode |
| Mode.StrictDispatch | advanced_server.py:37-45 | the validating server rejects anything other than `'N'` or `'R'`, receives on `'N'` and sends on `'R'` |
| Mode.LenientDispatch | server_side_with_new_feature.py:28-30 | the other servers never reject: they receive on `'N'` and send on anything else |
| Mode.HandshakeAgrees | advanced_client.py:37-38 | both kinds of server take the direction the client asked for |
| Mode.DispatchesDiffer | advanced_server.py:39-45 | the two kinds of server differ exactly on bytes other than `'N'` and `'R'` |
| Sessions.CumulativeTotal | archive/client_side_with_new_feature.py:35-45 | the shared reverse total after iteration k is everything read in iterations 0..k |
| Sessions.CumulativeReceive | archive/client_side_with_sleep_and_constant_rate.py:37-63 | the reverse iterations stop at the first interrupt, carry the total across iterations, and each one meets its timed receive and its sleep |
| ServerC.RampTrace | server_side.c:157-173 | the increasing phase makes at most one transfer per send attempted |
| ServerC.Accepted | server_side.c:161-167 | a send transfers at most the request and at most what the socket takes, and exactly one of the two |
| ServerC.RampCapped | server_side.c:157-173 | every transfer is 1..BUFFER_SIZE bytes and the phase never sends past `target_bytes` |
| ServerC.RampStops | server_side.c:157-173 | the phase ends with the target reached, or with a failed send |
| ServerC.RampWithoutPartialSends | server_side.c:157-173 | against a socket that takes whole buffers, the phase sends the fixed-volume chunks of the target |
| ServerC.IncreasingPhase | server_side.c:152-187 | the C loop makes the transfers of `RampTrace` and totals them |
| ServerC.ConstantSends | server_side.c:194-209 | the constant phase counts only sends made before `phase_time` that the socket accepted, and stops at the first reading past the deadline or the first failed send; a zero-byte rate sends nothing |
| ServerC.ConstantPhase | server_side.c:194-209 | the constant phase sends `bytes_per_second` per call until `phase_time`, a failed send or a zero-byte rate |
| ServerC.Escalate | server_side.c:214 | from a non-negative rate, `target_rate + target_rate * 0.2` truncated to `int` adds a fifth of the rate, rounded down |
| ServerC.EscalateStalls | server_side.c:214 | rates below 5 Mbps never grow |
| ServerC.RateAt | server_side.c:141-214 | from a non-negative rate, the rate of every iteration is at least the initial one, and a rate below 5 Mbps stays fixed |
| ServerC.RateNondecreasing | server_side.c:214 | from a non-negative rate, the per-iteration rate never falls |
| ServerC.EscalationCompounds | server_side.c:214 | from 25 Mbps the rates are 25, 30, 36, compounding rather than linear |
| ServerC.HandleClient | server_side.c:139-238 | normal mode receives the sum of the leading positive `recv` results; reverse mode runs `iterations` iterations, each with its escalated rate, capped ramp and constant phase, followed by a sleep of `sleep_duration` seconds when positive |
| AdvancedServer.TargetLinear | advanced_server.py:79-82 | the per-iteration target grows linearly, by a fifth of the base rate per iteration |
| AdvancedServer.IterationTarget | advanced_server.py:79-82 | the target of iteration i is the base plus i fifths of the base |
| AdvancedServer.PerInterval | advanced_server.py:118-123 | for a non-zero `--consphase_time`, the bytes per 10 ms interval, over the phase's intervals, add up to exactly the budget; over a positive phase time they have the budget's sign |
| AdvancedServer.PerIntervalScenario | advanced_server.py:118-123 | 5 000 000 bytes over 5 s are 10 000 bytes per interval |
| AdvancedServer.PacingSleep | advanced_server.py:146-150 | the pacing sleep wakes the pacer exactly on the next multiple of the interval after the elapsed time |
| AdvancedServer.SleepWithinInterval | advanced_server.py:147-150 | the pacing sleep `interval - elapsed % interval` is always in (0, interval] |
| AdvancedServer.RateRamp | advanced_server.py:87-95 | the rate-based phase sends the fixed-volume chunks of `floor(current_byte_send)` and totals them |
| AdvancedServer.RateRampBounds | advanced_server.py:87-95 | every ramp chunk is 1..BUFFER_SIZE bytes and the ramp never sends more than the target |
| AdvancedServer.PaceTrace | advanced_server.py:131-144 | the constant phase sends at most one chunk per reading of its loop condition |
| AdvancedServer.PacedConstantPhase | advanced_server.py:126-150 | the constant phase sends the chunks of `PaceTrace`, reports whether it left on `remaining_bytes <= 0`, and sleeps the pacing sleep after each send |
| AdvancedServer.PaceWithinBudget | advanced_server.py:133-144 | every paced chunk is at most `min(int(bytes_per_interval), BUFFER_SIZE)`, and the phase never spends more than its budget |
| AdvancedServer.PaceExit | advanced_server.py:131-136 | the phase leaves early exactly when the budget is spent before the deadline, and every chunk was sent before the deadline |
| AdvancedServer.PastDeadlineSendsNothing | advanced_server.py:114-131 | with a negative `--consphase_time` the deadline has passed before the loop starts: the constant phase sends nothing and does not leave on the budget |
| AdvancedServer.IncreasingPhase | advanced_server.py:75-108 | the rate-based or time-based increasing phase, and the budget it hands to the constant phase |
| AdvancedServer.ConstantRateIteration | advanced_server.py:73-153 | a `--constant_rate` iteration meets `IterationMeets` |
| AdvancedServer.PlainIteration | advanced_server.py:155-171 | without `--constant_rate`, an iteration sends `--bytes` if set, else `--time` if set, else nothing |
| AdvancedServer.RunIteration | advanced_server.py:65-181 | each iteration starts from zero counters, runs the phases its flags select, and records the `--sleep` that follows it |
| AdvancedServer.Serve | advanced_server.py:37-181 | an invalid mode is rejected before any transfer; `'N'` receives to end of stream; `'R'` runs `iterations` iterations, each meeting `IterationMeets` and followed by the `--sleep` seconds |
| AdvancedClient.RampSends | advanced_client.py:75-79 | the rate ramp makes at most one send per measurement |
| AdvancedClient.RampExit | advanced_client.py:75-79 | the ramp leaves only once the rate meets the target (or the measurements run out), and every earlier measurement was below it |
| AdvancedClient.RampCarryOver | advanced_client.py:62-79 | a carried rate already at the target makes the ramp send nothing and keep the rate |
| AdvancedClient.RampUntilRate | advanced_client.py:75-79 | the ramp sends `RampSends` full buffers and leaves the last measured rate |
| AdvancedClient.IncreasingPhase | advanced_client.py:70-87 | the rate-based ramp, or the time-based phase that leaves the carried rate unchanged |
| AdvancedClient.RunIteration | advanced_client.py:64-115 | an iteration meets `IterationMeets` from the rate carried in |
| AdvancedClient.RunClient | advanced_client.py:37-125 | reverse mode receives to end of stream; normal mode runs `iterations` iterations, each from the rate the previous one left and each followed by the `--sleep` seconds |
| AdvancedClient.RampLatches | advanced_client.py:62-79 | once a rate-based run reaches its target, every later ramp sends nothing and the rate stays put |
| AdvancedClient.LatchedIteration | advanced_client.py:72-79 | one iteration starting at the target sends no ramp and keeps the rate |
| ClientC.RoundUpLeast | client_side.c:176-179 | the ramp sends the least number of full buffers that reaches `target_bytes` |
| ClientC.RoundUpOfWholeBuffers | client_side.c:173-179 | for a target of whole buffers, the ramp sends exactly `target_rate` buffers, with no overshoot |
| ClientC.RoundUpRamp | client_side.c:176-179 | the ramp's full-buffer sends reach the target, and overshoot it by less than a buffer |
| ClientC.RunIteration | client_side.c:166-204 | an iteration runs the rate-based or time-based ramp, counts its constant-phase sends, and then sleeps `sleep_duration` seconds when positive |
| ClientC.RunClient | client_side.c:121-206 | the mode byte, then reverse receiving to end of stream or `iterations` normal iterations, each followed by its sleep |
| PreRateServer.RampRate | server_side_with_sleep_and_constant_rate_start_from_pre_rate.py:66-73 | the rate the ramp reaches is never negative |
| PreRateServer.RampShape | server_side_with_sleep_and_constant_rate_start_from_pre_rate.py:66-73 | the ramp sends once per reading before the deadline; the first chunk uses the starting rate and each later one the previous measurement |
| PreRateServer.RampChunks | server_side_with_sleep_and_constant_rate_start_from_pre_rate.py:66-73 | the ramp sends at most one chunk per reading and per measurement, and every chunk is at most a buffer |
| PreRateServer.StartChunkIsFullBuffer | server_side_with_sleep_and_constant_rate_start_from_pre_rate.py:54-68 | at the starting 1 Mbps the chunk is exactly one full buffer |
| PreRateServer.IncreasingPhase | server_side_with_sleep_and_constant_rate_start_from_pre_rate.py:63-73 | the ramp loop sends `RampChunks` and leaves `RampRate` |
| PreRateServer.RunIteration | server_side_with_sleep_and_constant_rate_start_from_pre_rate.py:57-100 | an iteration meets `IterationMeets` from its starting rate, and records the `--sleep` that follows it |
| PreRateServer.Serve | server_side_with_sleep_and_constant_rate_start_from_pre_rate.py:31-100 | `'N'` receives to end of stream; otherwise the first iteration starts at 1 Mbps, and each later one starts where the previous one ended, but only under `--constant_rate`; every iteration records the `--sleep` that follows it |
| PreRateServer.NoCarryWithoutConstantRate | server_side_with_sleep_and_constant_rate_start_from_pre_rate.py:78-90 | without `--constant_rate` every iteration starts from 1 Mbps |
| ArchiveRateServer.RunIteration | archive/server_side_with_sleep_and_constant_rate.py:56-94 | an iteration sends its ramp and constant phase up to any disconnect, and its running max never decreases |
| ArchiveRateServer.Serve | archive/server_side_with_sleep_and_constant_rate.py:33-98 | `'N'` receives to end of stream; otherwise it runs `iterations or 1` iterations and stops at the first disconnect |
| ArchiveRateServer.UndisturbedTotal | archive/server_side_with_sleep_and_constant_rate.py:64-84 | without a disconnect, the total is the ramp's full buffers plus the constant phase's rate chunks |
| ArchiveRateClient.KeepReceiving | archive/client_side_with_sleep_and_constant_rate.py:43 | with `-t` defaulting to 10, the receive condition is simply "elapsed < time" |
| ArchiveRateClient.SendIterationRun | archive/client_side_with_sleep_and_constant_rate.py:71-106 | an iteration meets `SendMeets`, and its running max never decreases |
| ArchiveRateClient.VolumeIterationTotal | archive/client_side_with_sleep_and_constant_rate.py:76-83 | an uninterrupted fixed-volume iteration sends exactly `--bytes` |
| ArchiveRateClient.SendSession | archive/client_side_with_sleep_and_constant_rate.py:70-120 | the normal iterations stop at the first interrupt, and each one meets `SendMeets` |
| ArchiveRateClient.RunClient | archive/client_side_with_sleep_and_constant_rate.py:32-120 | the mode byte, then reverse iterations with a shared total, or normal iterations, each ending at the first interrupt |
| NewFeatureClient.DefaultDiffersOnlyAtZero | client_side_with_new_feature.py:31-32 | this default agrees with `iterations or 1` except at an explicit 0 |
| NewFeatureClient.ReceiveIterationRun | client_side_with_new_feature.py:39-60 | a reverse iteration is a timed receive from a zero total, then its sleep |
| NewFeatureClient.SendIterationRun | client_side_with_new_feature.py:71-103 | a normal iteration sends `--bytes` or full buffers for `-t` seconds, up to any interrupt |
| NewFeatureClient.SendTotals | client_side_with_new_feature.py:75-94 | a timed total is whole buffers; an uninterrupted fixed-volume total is exactly `--bytes` |
| NewFeatureClient.ReceiveSession | client_side_with_new_feature.py:38-64 | the reverse iterations stop at the first interrupt, and each meets `ReceiveMeets` |
| NewFeatureClient.SendSession | client_side_with_new_feature.py:70-107 | the normal iterations stop at the first interrupt, and each meets `SendMeets` |
| NewFeatureClient.RunClient | client_side_with_new_feature.py:31-107 | the iteration default, the mode byte, then the chosen direction's iterations |
| ArchiveNewFeatureClient.AsWrittenCrashes | archive/client_side_with_new_feature.py:41 | the written loop condition raises `TypeError` exactly when an iteration count is given without `--time` |
| ArchiveNewFeatureClient.TypeErrorWitness | archive/client_side_with_new_feature.py:83 | `--iterations 2` without `--time` raises at the first loop check |
| ArchiveNewFeatureClient.ContinueAsWritten | archive/client_side_with_new_feature.py:83 | the condition as written: it raises exactly when an iteration count is given without `--time`; otherwise it continues while the elapsed time is before `--time`, or always without `--time` |
| ArchiveNewFeatureClient.ContinueCorrected | archive/client_side_with_new_feature.py:41 | the corrected condition continues exactly while the elapsed time is before the optional deadline |
| ArchiveNewFeatureClient.CorrectedAgrees | archive/client_side_with_new_feature.py:83 | wherever the written condition does not raise, it agrees with the corrected one |
| ArchiveNewFeatureClient.WrittenIsCorrected | archive/client_side_with_new_feature.py:41 | wherever the client does not crash, the written condition is the corrected one at every elapsed time |
| ArchiveNewFeatureClient.SendWhileContinuing | archive/client_side_with_new_feature.py:83-85 | the timed send makes one full-buffer send per reading before the optional deadline |
| ArchiveNewFeatureClient.SendIterationRun | archive/client_side_with_new_feature.py:69-95 | a normal iteration meets `SendMeets` |
| ArchiveNewFeatureClient.SendTotals | archive/client_side_with_new_feature.py:73-85 | an uninterrupted fixed-volume iteration sends `--bytes`; without `--time` the timed send runs through every reading |
| ArchiveNewFeatureClient.SendSession | archive/client_side_with_new_feature.py:68-99 | the normal iterations stop at the first interrupt, and each meets `SendMeets` |
| ArchiveNewFeatureClient.RunClient | archive/client_side_with_new_feature.py:30-99 | the client crashes with `TypeError` exactly when a positive `--iterations` is given without `-t` and the first iteration reaches the timed loop (reverse mode, or normal mode without `--bytes`); otherwise the mode byte, then reverse iterations with a shared total or normal iterations, each ending at the first interrupt |
| ArchiveNewFeatureServer.RunIteration | archive/server_side_with_new_feature.py:54-82 | a reverse iteration sends `--bytes` or timed full buffers up to any disconnect, then sleeps unless disconnected |
| ArchiveNewFeatureServer.IterationTotals | archive/server_side_with_new_feature.py:60-72 | an undisturbed fixed-volume total is `--bytes`; a timed total is whole buffers |
| ArchiveNewFeatureServer.Serve | archive/server_side_with_new_feature.py:33-86 | `'N'` receives to end of stream; otherwise, with neither `--bytes` nor `--time`, it crashes with `TypeError`, or else runs `iterations or 1` iterations until the first disconnect |
| NewFeatureServer.Serve | server_side_with_new_feature.py:28-79 | `'N'` receives to end of stream and throttles its progress lines; anything else sends full buffers until the client goes away |
| NewFeatureServer.LinesSpaced | server_side_with_new_feature.py:44-48 | two progress lines are at least a second apart |
| SimpleClient.TimedSend | client_side.py:64-79 | the timed send makes full-buffer sends until the deadline or an interrupt, and throttles its progress lines |
| SimpleClient.SentTotal | client_side.py:70-72 | the total sent is the sum of the sends made, never more sends than the deadline allows, and all of them unless interrupted |
| SimpleClient.RunClient | client_side.py:29-87 | the mode byte, then the timed receive or the timed send |
| FengServer.Duration | server_Feng.py:59-65 | the duration is `max(1, stop - start)` when both time headers are present, else 5 seconds; it is never below 1 |
| FengServer.Size | server_Feng.py:69 | for a non-negative rate the size is non-negative and is the duration's bytes at that rate, rounded down to a whole byte |
| FengServer.DefaultSize | server_Feng.py:43-69 | a request with no headers gets 655360 bytes |
| FengServer.DoGet | server_Feng.py:41-85 | the reply's `Content-Length` is the size; a non-negative size gives status 200 and a body of exactly that many random bytes |
| FengServer.AnsweredInFull | server_Feng.py:73-85 | with a non-negative rate, the reply is always 200 with a body exactly as long as its `Content-Length` |
| FengClient.ChunksTile | client_Feng.py:59-65 | a segment's requests tile it: each starts where the last one stopped, lasts one to four seconds and carries the segment's rate |
| FengClient.ChunksFrom | client_Feng.py:59-65 | every request of a segment starts no earlier than the cursor, stops after it starts and no later than the segment's end, and carries the segment's rate |
| FengClient.Schedule | client_Feng.py:49-65 | every request of the schedule lies within one of its segments and carries that segment's rate |
| FengClient.ChunkCount | client_Feng.py:59-65 | a segment of d seconds takes `ceil(d / 4)` requests |
| FengClient.TableCount | client_Feng.py:23-69 | the table in the script makes six requests |
| FengClient.SleepAfter | client_Feng.py:91 | the client sleeps at least a second, and at least the chunk's length minus the reply time |
| FengClient.RunSchedule | client_Feng.py:49-91 | the nested loop makes exactly the schedule's requests, counts them in `cnt`, and sleeps after each one |
| FengClient.ReplySize | client_Feng.py:59-67 | the server answers each request with `(stop - start) * kbps * 128` bytes |

## Left out

- Sockets, `connect`/`bind`/`accept`, argument parsing and printing are not modelled: the parsed arguments are a `Config` datatype, and the printed values are not modelled.
- The clock, `recv` results, `send` capacities, throughput measurements and caught exceptions are oracle parameters. Nothing models how the network produces them.
- The `sleep` calls between iterations and the pacing sleeps are modelled as durations the model records (the `slept` and `sleeps` fields); no time passes in the model.
- The one-second `time.sleep(1)` after each constant-phase send (`archive/server_side_with_sleep_and_constant_rate.py:84`, `archive/client_side_with_sleep_and_constant_rate.py:106`, `server_side_with_sleep_and_constant_rate_start_from_pre_rate.py:87`) is not recorded; there is exactly one per constant send, so it adds nothing to the recorded sends.
- Floating-point rounding is not modelled: floats are exact reals. The throughput displays (`total * 8 / 2^20 / elapsed`) and their `ZeroDivisionError` at an elapsed time of 0 are left out.
- C `int` overflow of `total_data_received` and `bytes_sent` is not modelled. Only the overflow of `target_rate * 1024 * 1024` is modelled, because that one decides the byte target.
- `server_side.c:204` sends `bytes_per_second` bytes from a 128 KiB buffer, so a rate above 1 Mbps reads past the buffer. The model records the requested size and leaves the over-read out.
- The mode byte is modelled as an optional character. A byte that is not valid UTF-8 makes `decode()` raise; this is left out.
- A negative `--sleep` (a `ValueError` in `time.sleep`) is left out.
- A keyboard interrupt is modelled only while a transfer is running, not during a sleep or a print.
- The HTTP server framework, header parsing and keep-alive handling in `server_Feng.py` are left out. Headers arrive already parsed, and `randbytes` is a function parameter. A header that does not parse, which makes `int()`/`float()` raise, is left out.
- `client_Feng.py` writes the request and reads the reply through `http.client`. The model computes the requests, and takes the reply times as a parameter.
- AdvancedServer.Serve: requires `Runnable`, as do AdvancedServer.RunIteration, AdvancedServer.ConstantRateIteration and AdvancedServer.IncreasingPhase. With `--constant_rate` but no increasing phase selected, `current_byte_send` is unbound (`NameError`), and `--consphase_time 0` divides by zero. Only these two crash paths are excluded rather than modelled; a negative `--consphase_time` is modelled, and its constant phase sends nothing (PastDeadlineSendsNothing).
- AdvancedServer.Serve, AdvancedClient.RunClient and PreRateServer.Serve: these scripts catch no exception around `sendall`, so a `BrokenPipeError` or `ConnectionResetError` ends the script mid-transfer. The model treats every send as succeeding and does not model that crash.
- ServerC.HandleClient and ClientC.RunClient: the C programs install no `SIGPIPE` handler and do not pass `MSG_NOSIGNAL`, so a send on a connection the peer closed kills the process. The model does not model the signal: in ServerC such a send is one that fails (`send` returning 0 or less), and ClientC, which ignores the result of `send`, treats every send as made.
- SimpleClient.RunClient, NewFeatureClient.RunClient, ArchiveNewFeatureClient.RunClient and ArchiveRateClient.RunClient: these clients catch only `KeyboardInterrupt`; a `BrokenPipeError` or `ConnectionResetError` from `sendall` ends the script and is not modelled.
- ArchiveNewFeatureClient.SendWhileContinuing: it loops under the corrected condition `ContinueCorrected`. It is reached only when ArchiveNewFeatureClient.RunClient does not crash, and there the written condition equals the corrected one (WrittenIsCorrected).
- ArchiveNewFeatureClient.SendIterationRun: built on SendWhileContinuing, so it too runs the corrected condition, which agrees with the written one wherever RunClient reaches it (WrittenIsCorrected).
- ArchiveNewFeatureClient.SendTotals: its totals are those of the corrected loop; the `TypeError` case is RunClient's `Crashed` outcome instead.
- ArchiveNewFeatureClient.SendSession: it runs the corrected condition; with `--iterations` set and `-t` unset in a timed send, RunClient crashes before any session (`Crashed`), so the session is only reached where the two conditions agree (WrittenIsCorrected).
- AdvancedClient.RunClient: requires a positive `--buffer_size`. With a size of 0 the fixed-volume loop never terminates.
- ServerC.HandleClient: requires, in reverse mode, that every iteration's rate stays within the range where the C products do not overflow, and is not negative.
- ClientC.RunClient: requires that, with `-C`, `target_rate * 1024 * 1024` fits in an `int`. Signed overflow is undefined in C, so the overflowing runs are excluded.
- PreRateServer.Serve and AdvancedClient.RunClient require the throughput measurements to be non-negative. A byte count over a positive elapsed time always gives such a value.

## Findings

| source | as written | input that shows it | evidently intended | confidence | as-written member | corrected member |
|---|---|---|---|---|---|---|
| archive/client_side_with_new_feature.py:83 | the loop condition `(args.iterations and time.time() - start_time < args.time) or (...)` compares with `args.time`, which has no default, whenever an iteration count is given | `--iterations 2` without `-t`: the first loop check raises `TypeError` (the same condition at line 41 does so in reverse mode); ArchiveNewFeatureClient.RunClient ends in `Crashed` on this input | an unset `--time` means no time limit, as the condition's second half already says for the no-iterations case | high (not executed) | ArchiveNewFeatureClient.ContinueAsWritten | ArchiveNewFeatureClient.ContinueCorrected |
