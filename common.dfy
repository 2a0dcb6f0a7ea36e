/** Shared vocabulary of the throughput scripts: the constants they all hard-code,
    byte-count traces, Python/C numeric conversions and the abstract clock. */
module Common {

  /** Every script sends from a 128 KiB buffer (`128 * 1024`, `#define BUFFER_SIZE 131072`). */
  const BUFFER_SIZE: nat := 131072

  /** Mbps to bytes per second: `1024 * 1024 / 8`. */
  const MBPS_TO_BYTES: nat := 131072

  /** The progress-log throttle interval, `LOG_INTERVAL = 1` second. */
  const LOG_INTERVAL: real := 1.0

  datatype Option<T> = None | Some(value: T)

  /** Python truthiness of an optional integer argument (`None` and `0` are false). */
  predicate Truthy(o: Option<int>)
  {
    o.Some? && o.value != 0
  }

  /** `range(args.iterations or 1)`: an unset or zero count runs once, a negative one never. */
  function IterationsOrOne(iterations: Option<int>): (n: nat)
    ensures Truthy(iterations) ==> n == Max(iterations.value, 0)
    ensures !Truthy(iterations) ==> n == 1
  {
    if Truthy(iterations) then Max(iterations.value, 0) else 1
  }

  function Min(a: int, b: int): int
  {
    if a <= b then a else b
  }

  function Max(a: int, b: int): int
  {
    if a >= b then a else b
  }

  function MaxReal(a: real, b: real): real
  {
    if a >= b then a else b
  }

  /** Total of a trace of byte counts, accumulated front to back as the scripts do. */
  function Sum(s: seq<int>): int
  {
    if s == [] then 0 else Sum(s[..|s| - 1]) + s[|s| - 1]
  }

  lemma SumAppend(s: seq<int>, x: int)
    ensures Sum(s + [x]) == Sum(s) + x
  {
    assert (s + [x])[..|s|] == s;
  }

  lemma {:induction false} SumConcat(s: seq<int>, t: seq<int>)
    ensures Sum(s + t) == Sum(s) + Sum(t)
    decreases |t|
  {
    if t == [] {
      assert s + t == s;
    } else {
      var t' := t[..|t| - 1];
      assert s + t == (s + t') + [t[|t| - 1]];
      assert t == t' + [t[|t| - 1]];
      SumAppend(s + t', t[|t| - 1]);
      SumAppend(t', t[|t| - 1]);
      SumConcat(s, t');
    }
  }

  lemma {:induction false} SumNonNegative(s: seq<int>)
    requires forall j :: 0 <= j < |s| ==> s[j] >= 0
    ensures Sum(s) >= 0
    decreases |s|
  {
    if s != [] {
      SumNonNegative(s[..|s| - 1]);
    }
  }

  /** `n` sends of the same chunk. */
  function Repeat(n: nat, x: nat): (r: seq<nat>)
    ensures |r| == n && forall j :: 0 <= j < n ==> r[j] == x
  {
    seq(n, _ => x)
  }

  lemma {:induction false} SumRepeat(n: nat, x: nat)
    ensures Sum(Repeat(n, x)) == n * x
  {
    if n > 0 {
      assert Repeat(n, x)[..n - 1] == Repeat(n - 1, x);
      SumRepeat(n - 1, x);
    }
  }

  /** Python `int(x)` on a float, and C's conversion of a double to an integer:
      both truncate toward zero. */
  function Trunc(x: real): (r: int)
    ensures x >= 0.0 ==> 0 <= r && r as real <= x < r as real + 1.0
    ensures x < 0.0 ==> r <= 0 && x <= r as real < x + 1.0
  {
    if x >= 0.0 then x.Floor else -((-x).Floor)
  }

  /** A C `int` (32 bits) can hold `x`. */
  predicate InInt32(x: int)
  {
    -0x8000_0000 <= x < 0x8000_0000
  }

  /** C integer division by a positive divisor: the quotient is truncated toward zero, so
      `q * b` lies within one divisor of `a` on the side of zero, for either sign of `a`. */
  function CDiv(a: int, b: nat): (q: int)
    requires b > 0
    ensures a >= 0 ==> 0 <= q * b <= a < q * b + b
    ensures a < 0 ==> q * b - b < a <= q * b <= 0
  {
    if a >= 0 then
      DivBounds(a, b);
      a / b
    else
      DivBounds(-a, b);
      assert -((-a) / b) * b == -(((-a) / b) * b);
      -((-a) / b)
  }

  /** Euclidean division of a natural number: the quotient times the divisor lies within one
      divisor below it. */
  lemma DivBounds(n: nat, b: nat)
    requires b > 0
    ensures 0 <= (n / b) * b <= n < (n / b) * b + b
  {
    assert n == (n / b) * b + n % b;
  }

  /** `(target_rate * 1024 * 1024) / 8` in C `int` arithmetic: the products overflow unless the
      rate lies in -2048..2047, and within that range the division is exact, so the target is
      `target_rate * 131072`, one full buffer per Mbps. */
  function CTargetBytes(targetRate: int): (b: int)
    requires InInt32(targetRate * 1024 * 1024)
    ensures b == targetRate * BUFFER_SIZE
    ensures InInt32(b)
  {
    CDiv(targetRate * 1024 * 1024, 8)
  }

  /** The rates for which the C products do not overflow: exactly -2048..2047. */
  lemma TargetNoOverflow(targetRate: int)
    ensures InInt32(targetRate * 1024 * 1024) <==> -2048 <= targetRate <= 2047
    ensures InInt32(targetRate * 1024 * 1024) ==> InInt32(targetRate * 1024)
  {
  }

  /** The number of leading clock readings that are still below `limit`: how many times a
      `while now() < limit` loop runs its body when the readings it sees are `ticks`. */
  function LeadingBelow(ticks: seq<real>, limit: real): (n: nat)
    ensures n <= |ticks|
    ensures forall k :: 0 <= k < n ==> ticks[k] < limit
    ensures n < |ticks| ==> ticks[n] >= limit
  {
    if ticks == [] || ticks[0] >= limit then 0 else 1 + LeadingBelow(ticks[1..], limit)
  }

  /** A loop that stopped at `k` with every earlier reading below the limit ran LeadingBelow times. */
  lemma LeadingBelowAt(ticks: seq<real>, limit: real, k: nat)
    requires k <= |ticks|
    requires forall j :: 0 <= j < k ==> ticks[j] < limit
    requires k < |ticks| ==> ticks[k] >= limit
    ensures LeadingBelow(ticks, limit) == k
  {
  }

  /** With a monotone clock the readings below the limit are exactly the first LeadingBelow ones. */
  lemma MonotoneLeadingBelow(ticks: seq<real>, limit: real)
    requires forall i, j :: 0 <= i <= j < |ticks| ==> ticks[i] <= ticks[j]
    ensures forall k :: 0 <= k < |ticks| ==> (ticks[k] < limit <==> k < LeadingBelow(ticks, limit))
  {
  }

  /** Whether a reading is still before an optional deadline (none means no time limit). */
  predicate BeforeDeadline(t: real, deadline: Option<real>)
  {
    deadline.None? || t < deadline.value
  }

  /** How many times a loop guarded by an optional deadline runs its body when its condition
      sees the readings `ticks`; without a deadline only the end of the readings stops it. */
  function Allowed(ticks: seq<real>, deadline: Option<real>): (n: nat)
    ensures n <= |ticks|
    ensures forall k :: 0 <= k < n ==> BeforeDeadline(ticks[k], deadline)
    ensures n < |ticks| ==> !BeforeDeadline(ticks[n], deadline)
    ensures deadline.None? ==> n == |ticks|
  {
    match deadline
    case None => |ticks|
    case Some(limit) => LeadingBelow(ticks, limit)
  }

  lemma AllowedAt(ticks: seq<real>, deadline: Option<real>, k: nat)
    requires k <= |ticks|
    requires forall j :: 0 <= j < k ==> BeforeDeadline(ticks[j], deadline)
    requires k < |ticks| ==> !BeforeDeadline(ticks[k], deadline)
    ensures Allowed(ticks, deadline) == k
  {
    if deadline.Some? {
      LeadingBelowAt(ticks, deadline.value, k);
    }
  }

  /** The number of leading positive results of a sequence of `recv` return values: the results a
      `recv ... if not data: break` loop accumulates. Running out of results is end of stream. */
  function LeadingPositive(results: seq<int>): (n: nat)
    ensures n <= |results|
    ensures forall k :: 0 <= k < n ==> results[k] > 0
    ensures n < |results| ==> results[n] <= 0
  {
    if results == [] || results[0] <= 0 then 0 else 1 + LeadingPositive(results[1..])
  }

  lemma LeadingPositiveAt(results: seq<int>, k: nat)
    requires k <= |results|
    requires forall j :: 0 <= j < k ==> results[j] > 0
    requires k < |results| ==> results[k] <= 0
    ensures LeadingPositive(results) == k
  {
  }

  /** An exception raised by the (k+1)-th send (a broken pipe, a reset connection, a keyboard
      interrupt) leaves only the first k sends done. */
  function Cut(trace: seq<nat>, stop: Option<nat>): (r: seq<nat>)
    ensures |r| <= |trace| && r == trace[..|r|]
    ensures |r| == (if Interrupted(trace, stop) then stop.value else |trace|)
  {
    match stop
    case None => trace
    case Some(k) => if k < |trace| then trace[..k] else trace
  }

  /** Whether the exception actually happened within the sends the phase attempted. */
  predicate Interrupted(trace: seq<nat>, stop: Option<nat>)
  {
    stop.Some? && stop.value < |trace|
  }

  /** An iteration loop of `count` rounds that is left at the first round whose flag is set
      (`except ...: break`): every round but the last ran to the end, and if fewer than `count`
      ran, the last one was cut short. */
  ghost predicate StopsAtInterrupt(count: nat, flags: seq<bool>)
  {
    && |flags| <= count
    && (|flags| < count ==> |flags| > 0 && flags[|flags| - 1])
    && (forall i :: 0 <= i < |flags| - 1 ==> !flags[i])
  }
}
