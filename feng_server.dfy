/** server_Feng.py: the HTTP video-chunk server. `do_GET` derives a response size from the
    request headers (the chunk's encoding rate and its start and stop times) and answers 200
    with that many random bytes and a matching `Content-Length`. */
module FengServer {
  import opened Common

  /** The three request headers `do_GET` reads, already parsed (`int(...)` for the rate,
      `float(...)` for the times); `None` is a header the request does not carry. */
  datatype Headers = Headers(rateKbps: Option<int>, startTime: Option<real>, stopTime: Option<real>)

  /** The default chunk when no time headers are sent: 5 seconds at 1 Mbps (`1 * 1024 * 1024`). */
  const DEFAULT_DURATION: real := 5.0
  const DEFAULT_RATE: int := 1048576

  /** The encoding rate in bits per second: `kbps * 1024` if the header is present. */
  function EncodingRate(h: Headers): (r: int)
    ensures h.rateKbps.Some? ==> r == h.rateKbps.value * 1024
    ensures h.rateKbps.None? ==> r == DEFAULT_RATE
  {
    if h.rateKbps.Some? then h.rateKbps.value * 1024 else DEFAULT_RATE
  }

  /** The chunk duration: `max(1, stop - start)` only when both time headers are present. */
  function Duration(h: Headers): (d: real)
    ensures d >= 1.0
    ensures h.startTime.Some? && h.stopTime.Some? ==> d == MaxReal(1.0, h.stopTime.value - h.startTime.value)
    ensures !(h.startTime.Some? && h.stopTime.Some?) ==> d == DEFAULT_DURATION
  {
    if h.startTime.Some? && h.stopTime.Some? then MaxReal(1.0, h.stopTime.value - h.startTime.value)
    else DEFAULT_DURATION
  }

  /** `int(duration * encoding_rate) // 8`: bits truncated to an integer, then floored to bytes.
      For a non-negative rate the size is never negative, and is the duration's worth of bytes
      at that rate, short by less than one byte. */
  function Size(h: Headers): (n: int)
    ensures EncodingRate(h) >= 0 ==>
      n >= 0 && n as real <= Duration(h) * EncodingRate(h) as real / 8.0 < n as real + 1.0
  {
    var bits := Trunc(Duration(h) * EncodingRate(h) as real);
    assert bits / 8 * 8 <= bits < bits / 8 * 8 + 8;
    bits / 8
  }

  /** A request without headers gets the default chunk: 5 s at 1 Mbps, 655360 bytes. */
  lemma DefaultSize()
    ensures Size(Headers(None, None, None)) == 655360
  {
    assert Duration(Headers(None, None, None)) * EncodingRate(Headers(None, None, None)) as real == 5242880.0;
  }

  /** What `do_GET` writes: the status line, the `Content-Length` header and the body. A
      negative size (only a negative rate gives one) makes `randbytes` raise `ValueError`
      after `end_headers` has already sent the status line 200 and the headers; `Failed`
      records only the `Content-Length` that went out, not the status line before it. */
  datatype Reply = Reply(status: int, contentLength: int, body: seq<bv8>) | Failed(contentLength: int)

  /** `do_GET`, with `random` standing for the bytes `randbytes` draws. */
  function DoGet(h: Headers, random: nat -> bv8): (r: Reply)
    ensures r.contentLength == Size(h)
    ensures r.Reply? <==> Size(h) >= 0
    ensures r.Reply? ==> r.status == 200 && |r.body| == r.contentLength
    ensures r.Reply? ==> forall i :: 0 <= i < |r.body| ==> r.body[i] == random(i)
  {
    var size := Size(h);
    if size >= 0 then Reply(200, size, seq(size, i requires 0 <= i => random(i))) else Failed(size)
  }

  /** A request that carries a non-negative rate is always answered with status 200 and a body
      exactly as long as its `Content-Length` says (section 8.6 of RFC 9110). */
  lemma AnsweredInFull(h: Headers, random: nat -> bv8)
    requires h.rateKbps.None? || h.rateKbps.value >= 0
    ensures DoGet(h, random).Reply?
    ensures DoGet(h, random).status == 200
    ensures |DoGet(h, random).body| == DoGet(h, random).contentLength == Size(h)
  {
  }
}
