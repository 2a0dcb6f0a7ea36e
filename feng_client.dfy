/** client_Feng.py: the HTTP video client. For every segment of its encoding table, in order, it
    requests the segment in chunks of at most `video_chunk_duration` seconds, each request's
    headers carrying the chunk's start and stop time and the segment's encoding rate, and
    sleeps at least a second after each reply. */
module FengClient {
  import opened Common
  import opened FengServer

  const CHUNK_DURATION: int := 4

  /** One entry of `video_segment_encodings`. */
  datatype Segment = Segment(rateKbps: int, start: int, stop: int)

  /** The headers of one request after the loop body has rewritten them. */
  datatype Request = Request(start: int, stop: int, rateKbps: int)

  /** The table the script requests: 12 s at 5000 kbps, then 12 s at 10000 kbps. */
  const ENCODINGS: seq<Segment> := [Segment(5000, 0, 12), Segment(10000, 12, 24)]

  /** The requests the inner loop makes for `seg` from `now` on: each asks for a non-empty
      stretch of `[now, stop)` at the segment's rate. */
  function ChunksFrom(seg: Segment, now: int): (t: seq<Request>)
    ensures forall k :: 0 <= k < |t| ==>
      now <= t[k].start < t[k].stop <= seg.stop && t[k].rateKbps == seg.rateKbps
    decreases seg.stop - now
  {
    if now >= seg.stop then []
    else
      var next := Min(now + CHUNK_DURATION, seg.stop);
      [Request(now, next, seg.rateKbps)] + ChunksFrom(seg, next)
  }

  /** A request asks for a non-empty stretch of the segment, at the segment's rate. */
  predicate Within(seg: Segment, r: Request)
  {
    seg.start <= r.start < r.stop <= seg.stop && r.rateKbps == seg.rateKbps
  }

  /** Some segment of the table contains the request. */
  ghost predicate Covered(segs: seq<Segment>, r: Request)
  {
    exists j :: 0 <= j < |segs| && Within(segs[j], r)
  }

  /** All requests, segment after segment: every one lies within one segment of the table. */
  function Schedule(segs: seq<Segment>): (t: seq<Request>)
    ensures forall k :: 0 <= k < |t| ==> Covered(segs, t[k])
  {
    if segs == [] then []
    else
      var init := segs[..|segs| - 1];
      var last := segs[|segs| - 1];
      var p := Schedule(init);
      var c := ChunksFrom(last, last.start);
      AppendCovered(segs, p, c);
      p + c
  }

  /** The requests for the earlier segments and those for the last segment together lie within
      the table. */
  lemma AppendCovered(segs: seq<Segment>, p: seq<Request>, c: seq<Request>)
    requires segs != []
    requires forall k :: 0 <= k < |p| ==> Covered(segs[..|segs| - 1], p[k])
    requires forall k :: 0 <= k < |c| ==> Within(segs[|segs| - 1], c[k])
    ensures forall k :: 0 <= k < |p + c| ==> Covered(segs, (p + c)[k])
  {
    forall k | 0 <= k < |p + c|
      ensures Covered(segs, (p + c)[k])
    {
      if k < |p| {
        var init := segs[..|segs| - 1];
        assert Covered(init, p[k]);
        var j :| 0 <= j < |init| && Within(init[j], p[k]);
        assert init[j] == segs[j] && (p + c)[k] == p[k];
      } else {
        assert Within(segs[|segs| - 1], (p + c)[k]);
      }
    }
  }

  /** The chunks from `now` tile `[now, stop)`: the first starts at `now`, each starts where the
      one before stopped, the last stops at `stop`, and each is 1 to 4 seconds long and carries
      the segment's rate. */
  lemma {:induction false} ChunksTile(seg: Segment, now: int)
    requires now < seg.stop
    ensures var c := ChunksFrom(seg, now);
      && |c| > 0
      && c[0].start == now
      && c[|c| - 1].stop == seg.stop
      && (forall k :: 0 <= k < |c| - 1 ==> c[k + 1].start == c[k].stop)
      && (forall k :: 0 <= k < |c| ==> 0 < c[k].stop - c[k].start <= CHUNK_DURATION && c[k].stop <= seg.stop)
      && (forall k :: 0 <= k < |c| ==> c[k].rateKbps == seg.rateKbps)
    decreases seg.stop - now
  {
    var next := Min(now + CHUNK_DURATION, seg.stop);
    var c := ChunksFrom(seg, now);
    var rest := ChunksFrom(seg, next);
    assert c == [Request(now, next, seg.rateKbps)] + rest;
    if next < seg.stop {
      ChunksTile(seg, next);
      forall k | 0 <= k < |c| - 1
        ensures c[k + 1].start == c[k].stop
      {
        if k > 0 {
          assert c[k] == rest[k - 1] && c[k + 1] == rest[k];
        }
      }
    } else {
      assert rest == [];
    }
  }

  /** A segment of length `d` goes as `ceil(d / 4)` requests. */
  lemma {:induction false} ChunkCount(seg: Segment, now: int)
    ensures |ChunksFrom(seg, now)| == if now >= seg.stop then 0 else (seg.stop - now + CHUNK_DURATION - 1) / CHUNK_DURATION
    decreases seg.stop - now
  {
    if now < seg.stop {
      var next := Min(now + CHUNK_DURATION, seg.stop);
      ChunkCount(seg, next);
    }
  }

  /** For the table in the script, `cnt` ends at 6: three requests per 12-second segment. */
  lemma TableCount()
    ensures |Schedule(ENCODINGS)| == 6
  {
    ChunkCount(ENCODINGS[0], 0);
    ChunkCount(ENCODINGS[1], 12);
    assert ENCODINGS[..1][..0] == [];
    assert Schedule(ENCODINGS) == Schedule(ENCODINGS[..1]) + ChunksFrom(ENCODINGS[1], 12);
  }

  /** `time.sleep(max(1, chunk length - elapsed))`: never less than a second. */
  function SleepAfter(r: Request, elapsed: real): (s: real)
    ensures s >= 1.0
    ensures s >= (r.stop - r.start) as real - elapsed
  {
    MaxReal(1.0, (r.stop - r.start) as real - elapsed)
  }

  /** The time each reply took, one per request; missing ones read as 0. */
  function ElapsedAt(elapsed: seq<real>, k: nat): real
  {
    if k < |elapsed| then elapsed[k] else 0.0
  }

  /** The script's nested loop: `for seg in video_segment_encodings`, then `while now <
      seg["Stop-Time"]` rewrites the headers, counts the request in `cnt`, and sleeps. */
  method RunSchedule(segs: seq<Segment>, elapsed: seq<real>) returns (requests: seq<Request>, cnt: nat, sleeps: seq<real>)
    ensures requests == Schedule(segs)
    ensures cnt == |requests| == |sleeps|
    ensures forall k :: 0 <= k < |sleeps| ==> sleeps[k] == SleepAfter(requests[k], ElapsedAt(elapsed, k)) >= 1.0
  {
    requests, cnt, sleeps := [], 0, [];
    var s := 0;
    while s < |segs|
      invariant 0 <= s <= |segs|
      invariant requests == Schedule(segs[..s])
      invariant cnt == |requests| == |sleeps|
      invariant forall k :: 0 <= k < |sleeps| ==> sleeps[k] == SleepAfter(requests[k], ElapsedAt(elapsed, k))
    {
      var seg := segs[s];
      var now := seg.start;
      ghost var before := requests;
      while now < seg.stop
        invariant requests + ChunksFrom(seg, now) == before + ChunksFrom(seg, seg.start)
        invariant cnt == |requests| == |sleeps|
        invariant forall k :: 0 <= k < |sleeps| ==> sleeps[k] == SleepAfter(requests[k], ElapsedAt(elapsed, k))
        decreases seg.stop - now
      {
        var headers := Request(now, Min(now + CHUNK_DURATION, seg.stop), seg.rateKbps);
        now := headers.stop;
        assert requests + ChunksFrom(seg, headers.start) == (requests + [headers]) + ChunksFrom(seg, now);
        cnt := cnt + 1;
        sleeps := sleeps + [SleepAfter(headers, ElapsedAt(elapsed, |requests|))];
        requests := requests + [headers];
      }
      assert segs[..s + 1][..s] == segs[..s];
      s := s + 1;
    }
    assert segs[..s] == segs;
  }

  /** The headers a request carries, as the server parses them. */
  function RequestHeaders(r: Request): Headers
  {
    Headers(Some(r.rateKbps), Some(r.start as real), Some(r.stop as real))
  }

  /** What the server answers to a request of the schedule: the chunk's length at the
      segment's rate, `(stop - start) * kbps * 1024 / 8` bytes. */
  lemma {:induction false} ReplySize(seg: Segment, now: int, k: nat)
    requires now < seg.stop && seg.rateKbps >= 0
    requires k < |ChunksFrom(seg, now)|
    ensures var r := ChunksFrom(seg, now)[k];
      Size(RequestHeaders(r)) == (r.stop - r.start) * seg.rateKbps * 128
  {
    var r := ChunksFrom(seg, now)[k];
    var h := RequestHeaders(r);
    assert Duration(h) == (r.stop - r.start) as real;
    SizeOfWholeSeconds(h, r.stop - r.start, seg.rateKbps);
  }

  /** A chunk of a whole number of seconds at a whole kbps rate is `d * kbps * 128` bytes. */
  lemma SizeOfWholeSeconds(h: Headers, d: int, kbps: int)
    requires d >= 1 && kbps >= 0
    requires Duration(h) == d as real && EncodingRate(h) == kbps * 1024
    ensures Size(h) == d * kbps * 128
  {
    assert Duration(h) * EncodingRate(h) as real == (d * kbps * 1024) as real;
    assert Trunc((d * kbps * 1024) as real) == d * kbps * 1024;
    assert d * kbps * 1024 == (d * kbps * 128) * 8;
  }
}
