/**
 * Finding the active circle: scan the circles in the order given and return
 * the first whose window holds `now`. A timestamp that does not parse, met
 * before a match, ends the scan with an error; so does finding no match.
 *
 * The code compares strictly on both ends (`now` after start and before
 * end), so `Bounds.Exclusive` is the code as written; `Bounds.HalfOpen`
 * (start inclusive, end exclusive) is the window its comment describes.
 */
module Resolution {
  import opened Types
  import opened Timestamps

  datatype Bounds = Exclusive | HalfOpen

  /** Whether the window from `start` to `end` holds `now`. */
  predicate Inside(bounds: Bounds, start: int, end: int, now: int)
  {
    match bounds
    case Exclusive => start < now < end
    case HalfOpen => start <= now < end
  }

  /** The first of the circle's timestamps, start before end, that does not parse. */
  function FirstBadField(c: Circle, codec: TimeCodec): (r: Option<string>)
    ensures r == None <==> codec.parse(c.start).Some? && codec.parse(c.end).Some?
    ensures codec.parse(c.start).None? ==> r == Some(c.start)
    ensures codec.parse(c.start).Some? && codec.parse(c.end).None? ==> r == Some(c.end)
  {
    if codec.parse(c.start).None? then Some(c.start)
    else if codec.parse(c.end).None? then Some(c.end)
    else None
  }

  /** Both timestamps of the circle parse and its window holds `now`. */
  predicate Hit(c: Circle, now: int, codec: TimeCodec, bounds: Bounds)
  {
    && codec.parse(c.start).Some?
    && codec.parse(c.end).Some?
    && Inside(bounds, codec.parse(c.start).value, codec.parse(c.end).value, now)
  }

  /** The first `k` circles parse and none of them holds `now`: the scan passed them over. */
  ghost predicate PassedOver(circles: seq<Circle>, k: nat, now: int, codec: TimeCodec, bounds: Bounds)
    requires k <= |circles|
  {
    forall j :: 0 <= j < k ==> FirstBadField(circles[j], codec) == None && !Hit(circles[j], now, codec, bounds)
  }

  /** The reference definition of the scan, one circle at a time. */
  function Resolve(circles: seq<Circle>, now: int, codec: TimeCodec, bounds: Bounds): (r: Returned<Circle>)
    decreases |circles|
  {
    if circles == [] then Returned(ZeroCircle, Some(NoCircleFound))
    else
      var c := circles[0];
      match FirstBadField(c, codec)
      case Some(text) => Returned(ZeroCircle, Some(TimestampParse(text)))
      case None =>
        if Hit(c, now, codec, bounds) then Returned(c, None)
        else Resolve(circles[1..], now, codec, bounds)
  }

  /**
   * The scan of the code as written, with `now` supplied by the caller. A
   * failure comes with the zero circle, as in the code.
   */
  method GetCurrentCircle(circles: seq<Circle>, now: int, codec: TimeCodec) returns (circle: Circle, err: Option<Error>)
    ensures Returned(circle, err) == Resolve(circles, now, codec, Exclusive)
  {
    for idx := 0 to |circles|
      invariant Resolve(circles, now, codec, Exclusive) == Resolve(circles[idx..], now, codec, Exclusive)
    {
      assert circles[idx..][1..] == circles[idx + 1..];
      var c := circles[idx];
      var start := codec.parse(c.start);
      if start.None? {
        return ZeroCircle, Some(TimestampParse(c.start));
      }
      var end := codec.parse(c.end);
      if end.None? {
        return ZeroCircle, Some(TimestampParse(c.end));
      }
      if start.value < now && now < end.value {
        return c, None;
      }
    }
    return ZeroCircle, Some(NoCircleFound);
  }

  /** Circles the scan passed over do not affect its answer. */
  lemma {:induction false} ResolveSkipsPassedOver(circles: seq<Circle>, k: nat, now: int, codec: TimeCodec, bounds: Bounds)
    requires k <= |circles| && PassedOver(circles, k, now, codec, bounds)
    ensures Resolve(circles, now, codec, bounds) == Resolve(circles[k..], now, codec, bounds)
    decreases k
  {
    if k > 0 {
      assert FirstBadField(circles[0], codec) == None && !Hit(circles[0], now, codec, bounds);
      var tail := circles[1..];
      assert PassedOver(tail, k - 1, now, codec, bounds) by {
        forall j | 0 <= j < k - 1
          ensures FirstBadField(tail[j], codec) == None && !Hit(tail[j], now, codec, bounds)
        {
          assert tail[j] == circles[j + 1];
        }
      }
      ResolveSkipsPassedOver(tail, k - 1, now, codec, bounds);
      assert tail[k - 1..] == circles[k..];
    }
  }

  /** The first circle holding `now`, with every earlier circle well formed, is the answer. */
  lemma ResolveFindsFirstHit(circles: seq<Circle>, k: nat, now: int, codec: TimeCodec, bounds: Bounds)
    requires k < |circles| && PassedOver(circles, k, now, codec, bounds)
    requires Hit(circles[k], now, codec, bounds)
    ensures Resolve(circles, now, codec, bounds) == Returned(circles[k], None)
  {
    ResolveSkipsPassedOver(circles, k, now, codec, bounds);
  }

  /**
   * A circle with an unparsable timestamp, met before any match, is an error
   * naming that timestamp, start before end.
   */
  lemma ResolveStopsAtBadCircle(circles: seq<Circle>, k: nat, now: int, codec: TimeCodec, bounds: Bounds)
    requires k < |circles| && PassedOver(circles, k, now, codec, bounds)
    requires FirstBadField(circles[k], codec).Some?
    ensures Resolve(circles, now, codec, bounds)
      == Returned(ZeroCircle, Some(TimestampParse(FirstBadField(circles[k], codec).value)))
  {
    ResolveSkipsPassedOver(circles, k, now, codec, bounds);
  }

  /** When every circle parses and none holds `now`, there is no circle to return. */
  lemma ResolveFindsNothing(circles: seq<Circle>, now: int, codec: TimeCodec, bounds: Bounds)
    requires PassedOver(circles, |circles|, now, codec, bounds)
    ensures Resolve(circles, now, codec, bounds) == Returned(ZeroCircle, Some(NoCircleFound))
  {
    ResolveSkipsPassedOver(circles, |circles|, now, codec, bounds);
  }

  /**
   * Every answer of the scan is one of three: the first circle holding `now`
   * after well-formed misses, the parse error of the first malformed circle
   * after well-formed misses, or "no circle found" after all circles missed.
   * Every failure comes with the zero circle.
   */
  lemma {:induction false} ResolveOutcomes(circles: seq<Circle>, now: int, codec: TimeCodec, bounds: Bounds)
    ensures var r := Resolve(circles, now, codec, bounds);
      && (r.err == None ==>
            exists k :: 0 <= k < |circles| && r.value == circles[k]
              && PassedOver(circles, k, now, codec, bounds) && Hit(circles[k], now, codec, bounds))
      && (r.err == Some(NoCircleFound) <==> PassedOver(circles, |circles|, now, codec, bounds))
      && (r.err.Some? && r.err != Some(NoCircleFound) ==>
            exists k :: 0 <= k < |circles| && PassedOver(circles, k, now, codec, bounds)
              && FirstBadField(circles[k], codec).Some?
              && r.err == Some(TimestampParse(FirstBadField(circles[k], codec).value)))
      && (r.err.Some? ==> r.value == ZeroCircle)
    decreases |circles|
  {
    var r := Resolve(circles, now, codec, bounds);
    if circles == [] {
      return;
    }
    var tail := circles[1..];
    if FirstBadField(circles[0], codec).Some? {
      assert PassedOver(circles, 0, now, codec, bounds);
      assert !PassedOver(circles, |circles|, now, codec, bounds);
      return;
    }
    if Hit(circles[0], now, codec, bounds) {
      assert PassedOver(circles, 0, now, codec, bounds);
      return;
    }
    ResolveOutcomes(tail, now, codec, bounds);
    assert r == Resolve(tail, now, codec, bounds);
    forall k | 0 <= k <= |tail| && PassedOver(tail, k, now, codec, bounds)
      ensures PassedOver(circles, k + 1, now, codec, bounds)
    {
      forall j | 0 <= j < k + 1
        ensures FirstBadField(circles[j], codec) == None && !Hit(circles[j], now, codec, bounds)
      {
        if j > 0 { assert circles[j] == tail[j - 1]; }
      }
    }
    if PassedOver(circles, |circles|, now, codec, bounds) {
      assert PassedOver(tail, |tail|, now, codec, bounds) by {
        forall j | 0 <= j < |tail|
          ensures FirstBadField(tail[j], codec) == None && !Hit(tail[j], now, codec, bounds)
        {
          assert tail[j] == circles[j + 1];
        }
      }
    }
    if r.err == None {
      var k :| 0 <= k < |tail| && r.value == tail[k]
        && PassedOver(tail, k, now, codec, bounds) && Hit(tail[k], now, codec, bounds);
      assert r.value == circles[k + 1];
    } else if r.err != Some(NoCircleFound) {
      var k :| 0 <= k < |tail| && PassedOver(tail, k, now, codec, bounds)
        && FirstBadField(tail[k], codec).Some?
        && r.err == Some(TimestampParse(FirstBadField(tail[k], codec).value));
      assert tail[k] == circles[k + 1];
    }
  }

  /** Circles after the answer are never looked at: replacing them changes nothing. */
  lemma ResolveIgnoresLaterCircles(circles: seq<Circle>, k: nat, rest: seq<Circle>, now: int, codec: TimeCodec, bounds: Bounds)
    requires k < |circles| && PassedOver(circles, k, now, codec, bounds)
    requires Hit(circles[k], now, codec, bounds) || FirstBadField(circles[k], codec).Some?
    ensures Resolve(circles[..k + 1] + rest, now, codec, bounds) == Resolve(circles, now, codec, bounds)
  {
    var other := circles[..k + 1] + rest;
    assert other[k] == circles[k];
    assert PassedOver(other, k, now, codec, bounds) by {
      forall j | 0 <= j < k
        ensures FirstBadField(other[j], codec) == None && !Hit(other[j], now, codec, bounds)
      {
        assert other[j] == circles[j];
      }
    }
    if Hit(circles[k], now, codec, bounds) {
      ResolveFindsFirstHit(circles, k, now, codec, bounds);
      ResolveFindsFirstHit(other, k, now, codec, bounds);
    } else {
      ResolveStopsAtBadCircle(circles, k, now, codec, bounds);
      ResolveStopsAtBadCircle(other, k, now, codec, bounds);
    }
  }

  /** The parsed start of a circle whose start parses. */
  function StartOf(c: Circle, codec: TimeCodec): int
    requires codec.parse(c.start).Some?
  {
    codec.parse(c.start).value
  }

  /** The parsed end of a circle whose end parses. */
  function EndOf(c: Circle, codec: TimeCodec): int
    requires codec.parse(c.end).Some?
  {
    codec.parse(c.end).value
  }

  /**
   * A schedule of well-formed, non-empty windows, each starting at the
   * instant the previous one ends.
   */
  ghost predicate Contiguous(circles: seq<Circle>, codec: TimeCodec)
  {
    && (forall j :: 0 <= j < |circles| ==>
          FirstBadField(circles[j], codec) == None && StartOf(circles[j], codec) < EndOf(circles[j], codec))
    && (forall j, k :: 0 <= j && k == j + 1 && k < |circles| ==>
          FirstBadField(circles[j], codec) == None && FirstBadField(circles[k], codec) == None
          && EndOf(circles[j], codec) == StartOf(circles[k], codec))
  }

  /** In a contiguous schedule every window ends no later than any later window starts. */
  lemma {:induction false} ContiguousOrdered(circles: seq<Circle>, codec: TimeCodec, j: nat, k: nat)
    requires Contiguous(circles, codec) && j < k < |circles|
    ensures EndOf(circles[j], codec) <= StartOf(circles[k], codec)
    decreases k - j
  {
    if j + 1 < k {
      ContiguousOrdered(circles, codec, j + 1, k);
      assert EndOf(circles[j], codec) == StartOf(circles[j + 1], codec);
    }
  }

  /** In a contiguous schedule no instant lies in two windows. */
  lemma ContiguousWindowsDisjoint(circles: seq<Circle>, codec: TimeCodec, j: nat, k: nat, now: int)
    requires Contiguous(circles, codec) && j < |circles| && k < |circles|
    requires Hit(circles[j], now, codec, HalfOpen) && Hit(circles[k], now, codec, HalfOpen)
    ensures j == k
  {
    if j < k {
      ContiguousOrdered(circles, codec, j, k);
    } else if k < j {
      ContiguousOrdered(circles, codec, k, j);
    }
  }

  /**
   * As written, the strict comparison misses every window boundary: at the
   * instant one window starts (and the one before it ends), the scan of a
   * contiguous schedule finds no circle.
   */
  lemma StrictScanMissesBoundary(circles: seq<Circle>, codec: TimeCodec, k: nat)
    requires Contiguous(circles, codec) && k < |circles|
    ensures Resolve(circles, StartOf(circles[k], codec), codec, Exclusive) == Returned(ZeroCircle, Some(NoCircleFound))
  {
    var now := StartOf(circles[k], codec);
    forall j | 0 <= j < |circles|
      ensures FirstBadField(circles[j], codec) == None && !Hit(circles[j], now, codec, Exclusive)
    {
      if j < k {
        ContiguousOrdered(circles, codec, j, k);
      } else if k < j {
        ContiguousOrdered(circles, codec, k, j);
      }
    }
    ResolveFindsNothing(circles, now, codec, Exclusive);
  }

  /** With half-open windows the instant a window starts resolves to that window. */
  lemma HalfOpenScanAtWindowStart(circles: seq<Circle>, codec: TimeCodec, k: nat)
    requires Contiguous(circles, codec) && k < |circles|
    ensures Resolve(circles, StartOf(circles[k], codec), codec, HalfOpen) == Returned(circles[k], None)
  {
    var now := StartOf(circles[k], codec);
    forall j | 0 <= j < k
      ensures FirstBadField(circles[j], codec) == None && !Hit(circles[j], now, codec, HalfOpen)
    {
      ContiguousOrdered(circles, codec, j, k);
    }
    ResolveFindsFirstHit(circles, k, now, codec, HalfOpen);
  }

  /**
   * With half-open windows every instant of a contiguous schedule, from the
   * first start up to (not including) the last end, resolves to the one
   * circle whose window holds it.
   */
  lemma {:induction false} HalfOpenScanCoversSchedule(circles: seq<Circle>, codec: TimeCodec, now: int)
    requires Contiguous(circles, codec) && |circles| > 0
    requires StartOf(circles[0], codec) <= now < EndOf(circles[|circles| - 1], codec)
    ensures var r := Resolve(circles, now, codec, HalfOpen);
      r.err == None && r.value in circles && Hit(r.value, now, codec, HalfOpen)
    decreases |circles|
  {
    if now >= EndOf(circles[0], codec) {
      var tail := circles[1..];
      assert |circles| > 1;
      assert tail[0] == circles[1];
      assert Contiguous(tail, codec) by {
        forall j | 0 <= j < |tail| - 1
          ensures EndOf(tail[j], codec) == StartOf(tail[j + 1], codec)
        {
          assert tail[j] == circles[j + 1] && tail[j + 1] == circles[j + 2];
        }
      }
      assert tail[|tail| - 1] == circles[|circles| - 1];
      HalfOpenScanCoversSchedule(tail, codec, now);
    }
  }
}
