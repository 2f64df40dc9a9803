/**
 * The schedule and the scan together: the intended schedule is a contiguous
 * run of windows, and how the two comparison rules read it.
 */
module Zone {
  import opened Types
  import opened Timestamps
  import opened Schedule
  import opened Resolution

  /**
   * When the codec reads back what it writes at the schedule's instants and
   * the interval is positive, the intended schedule is contiguous.
   */
  lemma IntendedScheduleIsContiguous(sorted: seq<Circle>, startTime: int, interval: int, codec: TimeCodec)
    requires RoundTripsOn(codec, startTime, interval, |sorted|) && interval > 0
    ensures Contiguous(Intended(sorted, startTime, interval, codec), codec)
  {
    var r := Intended(sorted, startTime, interval, codec);
    IntendedExactWindows(sorted, startTime, interval, codec);
    forall j | 0 <= j < |r|
      ensures StartOf(r[j], codec) < EndOf(r[j], codec)
    {
      assert Instant(startTime, interval, j + 1) == Instant(startTime, interval, j) + interval;
    }
  }

  /**
   * At the instant window `k` opens, the strict scan of the code finds no
   * circle, while the half-open scan finds circle `k`.
   */
  lemma ScheduleBoundaryInstant(sorted: seq<Circle>, startTime: int, interval: int, codec: TimeCodec, k: nat)
    requires RoundTripsOn(codec, startTime, interval, |sorted|) && interval > 0 && k < |sorted|
    ensures var r := Intended(sorted, startTime, interval, codec);
      && Resolve(r, Instant(startTime, interval, k), codec, Exclusive) == Returned(ZeroCircle, Some(NoCircleFound))
      && Resolve(r, Instant(startTime, interval, k), codec, HalfOpen) == Returned(r[k], None)
  {
    var r := Intended(sorted, startTime, interval, codec);
    IntendedScheduleIsContiguous(sorted, startTime, interval, codec);
    IntendedExactWindows(sorted, startTime, interval, codec);
    assert StartOf(r[k], codec) == Instant(startTime, interval, k);
    StrictScanMissesBoundary(r, codec, k);
    HalfOpenScanAtWindowStart(r, codec, k);
  }

  /**
   * Every instant from the start time up to the end of the last window
   * resolves, with half-open windows, to the one circle whose window holds it.
   */
  lemma EveryGameInstantResolves(sorted: seq<Circle>, startTime: int, interval: int, codec: TimeCodec, now: int)
    requires RoundTripsOn(codec, startTime, interval, |sorted|) && interval > 0 && |sorted| > 0
    requires startTime <= now < Instant(startTime, interval, |sorted|)
    ensures var r := Intended(sorted, startTime, interval, codec);
      var found := Resolve(r, now, codec, HalfOpen);
      && found.err == None
      && (exists k :: 0 <= k < |r| && found.value == r[k] && Hit(r[k], now, codec, HalfOpen))
      && (forall j :: 0 <= j < |r| && Hit(r[j], now, codec, HalfOpen) ==> r[j] == found.value)
  {
    var r := Intended(sorted, startTime, interval, codec);
    var n := |sorted|;
    IntendedScheduleIsContiguous(sorted, startTime, interval, codec);
    IntendedExactWindows(sorted, startTime, interval, codec);
    assert StartOf(r[0], codec) == startTime;
    assert EndOf(r[n - 1], codec) == Instant(startTime, interval, n);
    HalfOpenScanCoversSchedule(r, codec, now);
    var found := Resolve(r, now, codec, HalfOpen);
    var k :| 0 <= k < |r| && found.value == r[k];
    forall j | 0 <= j < |r| && Hit(r[j], now, codec, HalfOpen)
      ensures r[j] == found.value
    {
      ContiguousWindowsDisjoint(r, codec, j, k, now);
    }
  }
}
