/**
 * Assigning time windows to the zone circles: sort the fetched circles by
 * radius, largest first, open the first window at the start time and chain
 * every later window off the one before it.
 *
 * `PopulateCircles` is the loop as the code has it: each later circle is a
 * copy of the array element, and the array is never updated past index 0, so
 * window `i >= 2` is chained off the `end` that circle `i - 1` was fetched
 * with. `PopulateCirclesIntended` chains every window off the previous new one.
 */
module Schedule {
  import opened Types
  import opened Timestamps

  /** Radii never increase along the sequence. */
  predicate SortedByMetersDesc(s: seq<Circle>)
  {
    forall p, q :: 0 <= p < q < |s| ==> s[p].meters >= s[q].meters
  }

  /** Exchanges two elements, leaving the rest in place. */
  method Swap(a: array<Circle>, i: int, j: int)
    requires 0 <= i < j < a.Length
    modifies a
    ensures a[i] == old(a[j]) && a[j] == old(a[i])
    ensures forall m :: 0 <= m < a.Length && m != i && m != j ==> a[m] == old(a[m])
    ensures multiset(a[..]) == old(multiset(a[..]))
  {
    a[i], a[j] := a[j], a[i];
  }

  /** Moves `a[i]` left into the sorted prefix `a[..i]`. */
  method InsertAt(a: array<Circle>, i: int)
    requires 0 <= i < a.Length
    requires SortedByMetersDesc(a[..i])
    modifies a
    ensures SortedByMetersDesc(a[..i + 1])
    ensures forall m :: i < m < a.Length ==> a[m] == old(a[m])
    ensures multiset(a[..]) == old(multiset(a[..]))
  {
    var j := i;
    while j > 0 && a[j - 1].meters < a[j].meters
      invariant 0 <= j <= i
      invariant forall p, q :: 0 <= p < q <= i && p != j && q != j ==> a[p].meters >= a[q].meters
      invariant forall q :: j < q <= i ==> a[j].meters > a[q].meters
      invariant forall m :: i < m < a.Length ==> a[m] == old(a[m])
      invariant multiset(a[..]) == old(multiset(a[..]))
    {
      Swap(a, j - 1, j);
      j := j - 1;
    }
  }

  /**
   * Sorts by radius, largest first. The library sort is not stable, so only
   * order and permutation are promised; ties may land in any order.
   */
  method SortByMetersDesc(a: array<Circle>)
    modifies a
    ensures SortedByMetersDesc(a[..])
    ensures multiset(a[..]) == old(multiset(a[..]))
  {
    var i := 0;
    while i < a.Length
      invariant 0 <= i <= a.Length
      invariant SortedByMetersDesc(a[..i])
      invariant multiset(a[..]) == old(multiset(a[..]))
    {
      InsertAt(a, i);
      i := i + 1;
    }
    assert a[..a.Length] == a[..];
  }

  /** The records handed to the store, and the error the operation returns. */
  datatype Emission = Emission(updates: seq<Circle>, err: Option<Error>)

  /** The sorted array once circle 0 holds the first window. */
  function OpenFirst(sorted: seq<Circle>, startTime: int, interval: int, codec: TimeCodec): (a: seq<Circle>)
    requires |sorted| > 0
  {
    sorted[0 := WithWindow(sorted[0], codec.format(startTime), codec.format(startTime + interval))]
  }

  /**
   * What the loop emits from index `k` on, reading the array `a` that it
   * never writes: circle `k` starts at `a[k - 1].end` and ends one interval
   * after that end parses to; a parse failure stops the loop with an error.
   */
  function ChainFrom(a: seq<Circle>, k: nat, interval: int, codec: TimeCodec): (e: Emission)
    requires 1 <= k <= |a|
    decreases |a| - k
  {
    if k == |a| then Emission([], None)
    else if codec.parse(a[k - 1].end).None? then Emission([], Some(TimestampParse(a[k - 1].end)))
    else
      var rest := ChainFrom(a, k + 1, interval, codec);
      Emission([Chained(a, k, interval, codec)] + rest.updates, rest.err)
  }

  /** Circle `i` of the loop: window from `a[i - 1].end` to one interval after it. */
  function Chained(a: seq<Circle>, i: nat, interval: int, codec: TimeCodec): (c: Circle)
    requires 1 <= i < |a| && codec.parse(a[i - 1].end).Some?
  {
    WithWindow(a[i], a[i - 1].end, codec.format(codec.parse(a[i - 1].end).value + interval))
  }

  /** Everything the as-written operation emits for the sorted circles. */
  function AsWritten(sorted: seq<Circle>, startTime: int, interval: int, codec: TimeCodec): (e: Emission)
    requires |sorted| > 0
  {
    var a := OpenFirst(sorted, startTime, interval, codec);
    var rest := ChainFrom(a, 1, interval, codec);
    Emission([a[0]] + rest.updates, rest.err)
  }

  /**
   * The window assignment of the code as written. `updates` are the records
   * passed to the store's update, in order; the store's answers are ignored
   * by the code and do not appear here. `sorted` is the array after sorting.
   */
  method PopulateCircles(items: array<Circle>, startTime: int, interval: int, codec: TimeCodec)
    returns (updates: seq<Circle>, err: Option<Error>, ghost sorted: seq<Circle>)
    modifies items
    ensures SortedByMetersDesc(sorted) && multiset(sorted) == multiset(old(items[..]))
    ensures items.Length == 0 ==> updates == [] && err == Some(IndexOutOfRange)
    ensures items.Length > 0 ==>
      && items[..] == OpenFirst(sorted, startTime, interval, codec)
      && Emission(updates, err) == AsWritten(sorted, startTime, interval, codec)
  {
    SortByMetersDesc(items);
    sorted := items[..];
    if items.Length == 0 {
      return [], Some(IndexOutOfRange), sorted;
    }
    items[0] := WithWindow(items[0], codec.format(startTime), codec.format(startTime + interval));
    updates := [items[0]];
    var circleIdx := 1;
    while circleIdx < items.Length
      invariant 1 <= circleIdx <= items.Length
      invariant items[..] == OpenFirst(sorted, startTime, interval, codec)
      invariant AsWritten(sorted, startTime, interval, codec)
        == Emission(updates + ChainFrom(items[..], circleIdx, interval, codec).updates,
                    ChainFrom(items[..], circleIdx, interval, codec).err)
    {
      var currentCircle := items[circleIdx];
      currentCircle := currentCircle.(start := items[circleIdx - 1].end);
      var end := codec.parse(items[circleIdx - 1].end);
      if end.None? {
        return updates, Some(TimestampParse(items[circleIdx - 1].end)), sorted;
      }
      currentCircle := currentCircle.(end := codec.format(end.value + interval));
      updates := updates + [currentCircle];
      circleIdx := circleIdx + 1;
    }
    err := None;
  }

  /**
   * The loop from index `k` emits one record per index until the first end
   * that does not parse; that failure is the error, and every record emitted
   * before it stands.
   */
  lemma {:induction false} ChainFromShape(a: seq<Circle>, k: nat, interval: int, codec: TimeCodec)
    requires 1 <= k <= |a|
    ensures var e := ChainFrom(a, k, interval, codec);
      && k + |e.updates| <= |a|
      && (forall i :: k - 1 <= i < k - 1 + |e.updates| ==> codec.parse(a[i].end).Some?)
      && (forall i :: k <= i < k + |e.updates| ==>
            codec.parse(a[i - 1].end).Some? && e.updates[i - k] == Chained(a, i, interval, codec))
      && (e.err == None <==> k + |e.updates| == |a|)
      && (e.err != None ==>
            && codec.parse(a[k + |e.updates| - 1].end) == None
            && e.err == Some(TimestampParse(a[k + |e.updates| - 1].end)))
    decreases |a| - k
  {
    if k < |a| && codec.parse(a[k - 1].end).Some? {
      ChainFromShape(a, k + 1, interval, codec);
      var e := ChainFrom(a, k, interval, codec);
      var rest := ChainFrom(a, k + 1, interval, codec);
      assert e.updates == [Chained(a, k, interval, codec)] + rest.updates;
      forall i | k < i < k + |e.updates|
        ensures codec.parse(a[i - 1].end).Some? && e.updates[i - k] == Chained(a, i, interval, codec)
      {
        assert e.updates[i - k] == rest.updates[i - (k + 1)];
      }
    }
  }

  /**
   * What the as-written operation emits, index by index: circle 0 with the
   * first window, then each later circle `i` chained off the `end` the array
   * holds at `i - 1`, up to the first end that does not parse.
   */
  lemma AsWrittenShape(sorted: seq<Circle>, startTime: int, interval: int, codec: TimeCodec)
    requires |sorted| > 0
    ensures var e := AsWritten(sorted, startTime, interval, codec);
      var a := OpenFirst(sorted, startTime, interval, codec);
      && 1 <= |e.updates| <= |sorted|
      && e.updates[0] == a[0]
      && (forall i :: 0 <= i < |e.updates| - 1 ==> codec.parse(a[i].end).Some?)
      && (forall i :: 1 <= i < |e.updates| ==>
            codec.parse(a[i - 1].end).Some? && e.updates[i] == Chained(a, i, interval, codec))
      && (e.err == None <==> |e.updates| == |sorted|)
      && (e.err != None ==>
            && codec.parse(a[|e.updates| - 1].end) == None
            && e.err == Some(TimestampParse(a[|e.updates| - 1].end)))
  {
    var e := AsWritten(sorted, startTime, interval, codec);
    var a := OpenFirst(sorted, startTime, interval, codec);
    var rest := ChainFrom(a, 1, interval, codec);
    ChainFromShape(a, 1, interval, codec);
    forall i | 1 <= i < |e.updates|
      ensures codec.parse(a[i - 1].end).Some? && e.updates[i] == Chained(a, i, interval, codec)
    {
      assert e.updates[i] == rest.updates[i - 1];
    }
  }

  /** The first record emitted is circle 0 opened at the start time for one interval. */
  lemma FirstUpdateOpensAtStart(sorted: seq<Circle>, startTime: int, interval: int, codec: TimeCodec)
    requires |sorted| > 0
    ensures var e := AsWritten(sorted, startTime, interval, codec);
      && |e.updates| >= 1
      && e.updates[0] == WithWindow(sorted[0], codec.format(startTime), codec.format(startTime + interval))
  {
    AsWrittenShape(sorted, startTime, interval, codec);
  }

  /** Every emitted record is the sorted circle at its index with only its window changed. */
  lemma UpdatesKeepIdentity(sorted: seq<Circle>, startTime: int, interval: int, codec: TimeCodec)
    requires |sorted| > 0
    ensures var e := AsWritten(sorted, startTime, interval, codec);
      |e.updates| <= |sorted| && forall i :: 0 <= i < |e.updates| ==> SameExceptWindow(e.updates[i], sorted[i])
  {
    AsWrittenShape(sorted, startTime, interval, codec);
  }

  /**
   * Windows 0 and 1 are contiguous: circle 1 starts at the end just written
   * into circle 0, and ends one interval after it parses to.
   */
  lemma FirstTwoWindowsContiguous(sorted: seq<Circle>, startTime: int, interval: int, codec: TimeCodec)
    requires |sorted| > 0
    ensures var e := AsWritten(sorted, startTime, interval, codec);
      |e.updates| >= 2 ==>
        && e.updates[1].start == e.updates[0].end
        && e.updates[1].end == codec.format(codec.parse(e.updates[0].end).value + interval)
  {
    AsWrittenShape(sorted, startTime, interval, codec);
  }

  /**
   * For `i >= 2` the loop reads the copy-not-written-back array: circle `i`
   * starts at the `end` circle `i - 1` was fetched with, and ends one interval
   * after that fetched end.
   */
  lemma LaterWindowsChainOffFetchedEnds(sorted: seq<Circle>, startTime: int, interval: int, codec: TimeCodec)
    requires |sorted| > 0
    ensures var e := AsWritten(sorted, startTime, interval, codec);
      |e.updates| <= |sorted| && forall i :: 2 <= i < |e.updates| ==>
        && codec.parse(sorted[i - 1].end).Some?
        && e.updates[i].start == sorted[i - 1].end
        && e.updates[i].end == codec.format(codec.parse(sorted[i - 1].end).value + interval)
  {
    var a := OpenFirst(sorted, startTime, interval, codec);
    AsWrittenShape(sorted, startTime, interval, codec);
    assert forall i :: 1 <= i < |sorted| ==> a[i] == sorted[i];
  }

  /**
   * When the codec reads back what it writes at the schedule's instants, the
   * end written into circle 0 parses, so circle 1 is always emitted.
   */
  lemma SecondWindowAlwaysEmitted(sorted: seq<Circle>, startTime: int, interval: int, codec: TimeCodec)
    requires RoundTripsOn(codec, startTime, interval, |sorted|) && |sorted| >= 2
    ensures var e := AsWritten(sorted, startTime, interval, codec);
      && |e.updates| >= 2
      && e.updates[1] == WithWindow(sorted[1], codec.format(startTime + interval),
                                    codec.format(startTime + interval + interval))
  {
    AsWrittenShape(sorted, startTime, interval, codec);
    var a := OpenFirst(sorted, startTime, interval, codec);
    assert Instant(startTime, interval, 1) == startTime + interval;
    assert codec.parse(a[0].end) == Some(startTime + interval);
  }

  /**
   * Circles fetched without a schedule: when the `end` fetched with circle 1
   * does not parse (an empty string, say), the operation stops with that
   * parse error after emitting circles 0 and 1 only.
   */
  lemma UnscheduledCircleAborts(sorted: seq<Circle>, startTime: int, interval: int, codec: TimeCodec)
    requires RoundTripsOn(codec, startTime, interval, |sorted|) && |sorted| >= 3
    requires codec.parse(sorted[1].end) == None
    ensures var e := AsWritten(sorted, startTime, interval, codec);
      |e.updates| == 2 && e.err == Some(TimestampParse(sorted[1].end))
  {
    var e := AsWritten(sorted, startTime, interval, codec);
    var a := OpenFirst(sorted, startTime, interval, codec);
    AsWrittenShape(sorted, startTime, interval, codec);
    SecondWindowAlwaysEmitted(sorted, startTime, interval, codec);
    assert a[1] == sorted[1];
  }

  /**
   * Circles fetched with a window from an earlier schedule: when the `end`
   * fetched with circle 1 parses but is not the text of the new window 1's
   * end, window 2 does not start where window 1 ends.
   */
  lemma StaleEndBreaksContiguity(sorted: seq<Circle>, startTime: int, interval: int, codec: TimeCodec)
    requires RoundTripsOn(codec, startTime, interval, |sorted|) && |sorted| >= 3
    requires codec.parse(sorted[1].end).Some? && sorted[1].end != codec.format(startTime + interval + interval)
    ensures var e := AsWritten(sorted, startTime, interval, codec);
      |e.updates| >= 3 && e.updates[2].start != e.updates[1].end
  {
    var e := AsWritten(sorted, startTime, interval, codec);
    var a := OpenFirst(sorted, startTime, interval, codec);
    AsWrittenShape(sorted, startTime, interval, codec);
    SecondWindowAlwaysEmitted(sorted, startTime, interval, codec);
    assert a[1] == sorted[1];
    assert |e.updates| >= 3;
    assert e.updates[2].start == sorted[1].end;
    var newEnd := startTime + interval + interval;
    assert e.updates[1].end == codec.format(newEnd);
    assert Instant(startTime, interval, 2) == newEnd;
  }

  /** Window `i` of the intended schedule: from instant `i` to instant `i + 1`. */
  function IntendedWindow(c: Circle, i: nat, startTime: int, interval: int, codec: TimeCodec): (r: Circle)
  {
    WithWindow(c, codec.format(Instant(startTime, interval, i)), codec.format(Instant(startTime, interval, i + 1)))
  }

  /** The schedule the operation is evidently meant to produce for the sorted circles. */
  function Intended(sorted: seq<Circle>, startTime: int, interval: int, codec: TimeCodec): (r: seq<Circle>)
    ensures |r| == |sorted|
  {
    seq(|sorted|, i requires 0 <= i < |sorted| => IntendedWindow(sorted[i], i, startTime, interval, codec))
  }

  /**
   * Circles fetched without a schedule, run twice: the first run stops after
   * circle 1 at the blank end fetched with it. Once its records are stored, a
   * rerun with the same start, interval and order of ties gets exactly one
   * circle further, emitting the intended first three windows, and stops at
   * the blank end of circle 2.
   */
  lemma RerunGetsOneCircleFurther(sorted: seq<Circle>, startTime: int, interval: int, codec: TimeCodec)
    requires RoundTripsOn(codec, startTime, interval, |sorted|) && |sorted| >= 4
    requires codec.parse(sorted[1].end) == None && codec.parse(sorted[2].end) == None
    ensures var first := AsWritten(sorted, startTime, interval, codec);
      |first.updates| == 2 && first.err == Some(TimestampParse(sorted[1].end))
    ensures var first := AsWritten(sorted, startTime, interval, codec);
      var stored := first.updates + sorted[|first.updates|..];
      var second := AsWritten(stored, startTime, interval, codec);
      && |stored| == |sorted|
      && second.updates == Intended(sorted, startTime, interval, codec)[..3]
      && second.err == Some(TimestampParse(sorted[2].end))
  {
    var first := AsWritten(sorted, startTime, interval, codec);
    UnscheduledCircleAborts(sorted, startTime, interval, codec);
    SecondWindowAlwaysEmitted(sorted, startTime, interval, codec);
    AsWrittenShape(sorted, startTime, interval, codec);
    var stored := first.updates + sorted[2..];
    assert stored[2] == sorted[2];
    var second := AsWritten(stored, startTime, interval, codec);
    var b := OpenFirst(stored, startTime, interval, codec);
    AsWrittenShape(stored, startTime, interval, codec);
    SecondWindowAlwaysEmitted(stored, startTime, interval, codec);
    var r := Intended(sorted, startTime, interval, codec);
    assert Instant(startTime, interval, 1) == startTime + interval;
    assert Instant(startTime, interval, 2) == startTime + interval + interval;
    assert Instant(startTime, interval, 3) == Instant(startTime, interval, 2) + interval;
    assert b[1] == stored[1] && b[2] == sorted[2];
    assert codec.parse(b[1].end) == Some(Instant(startTime, interval, 2));
    assert |second.updates| == 3;
    assert second.updates[0] == r[0];
    assert second.updates[1] == r[1];
    assert second.updates[2] == r[2];
    assert second.updates == r[..3];
  }

  /**
   * The corrected operation: an empty list is an error rather than a fault,
   * and every window starts where the previous new window ends, the running
   * end being carried in memory and written back into the array.
   */
  method PopulateCirclesIntended(items: array<Circle>, startTime: int, interval: int, codec: TimeCodec)
    returns (updates: seq<Circle>, err: Option<Error>, ghost sorted: seq<Circle>)
    modifies items
    ensures SortedByMetersDesc(sorted) && multiset(sorted) == multiset(old(items[..]))
    ensures items.Length == 0 ==> updates == [] && err == Some(EmptyInput)
    ensures items.Length > 0 ==>
      err == None && updates == Intended(sorted, startTime, interval, codec) && items[..] == updates
  {
    SortByMetersDesc(items);
    sorted := items[..];
    if items.Length == 0 {
      return [], Some(EmptyInput), sorted;
    }
    updates := [];
    var windowStart := startTime;
    for circleIdx := 0 to items.Length
      invariant windowStart == Instant(startTime, interval, circleIdx)
      invariant updates == Intended(sorted, startTime, interval, codec)[..circleIdx]
      invariant items[..circleIdx] == updates
      invariant items[circleIdx..] == sorted[circleIdx..]
    {
      assert windowStart + interval == Instant(startTime, interval, circleIdx + 1);
      items[circleIdx] := WithWindow(items[circleIdx], codec.format(windowStart), codec.format(windowStart + interval));
      updates := updates + [items[circleIdx]];
      windowStart := windowStart + interval;
    }
    assert items[..] == items[..items.Length];
    err := None;
  }

  /** The intended schedule opens at the start time and is contiguous as text. */
  lemma IntendedContiguous(sorted: seq<Circle>, startTime: int, interval: int, codec: TimeCodec)
    requires |sorted| > 0
    ensures var r := Intended(sorted, startTime, interval, codec);
      && r[0].start == codec.format(startTime)
      && (forall i :: 0 <= i < |r| - 1 ==> r[i].end == r[i + 1].start)
  {
    var r := Intended(sorted, startTime, interval, codec);
    assert Instant(startTime, interval, 0) == startTime;
    forall i | 0 <= i < |r| - 1
      ensures r[i].end == r[i + 1].start
    {
      assert r[i + 1].start == codec.format(Instant(startTime, interval, i + 1));
    }
  }

  /**
   * When the codec reads back what it writes at the schedule's instants, every
   * intended window runs from instant `i` to instant `i + 1`, each starting
   * where the previous one ends, and keeps the identity of its circle.
   */
  lemma IntendedExactWindows(sorted: seq<Circle>, startTime: int, interval: int, codec: TimeCodec)
    requires RoundTripsOn(codec, startTime, interval, |sorted|)
    ensures var r := Intended(sorted, startTime, interval, codec);
      forall i :: 0 <= i < |r| ==>
        && SameExceptWindow(r[i], sorted[i])
        && codec.parse(r[i].start) == Some(Instant(startTime, interval, i))
        && codec.parse(r[i].end) == Some(Instant(startTime, interval, i + 1))
  {
    var r := Intended(sorted, startTime, interval, codec);
    forall i | 0 <= i < |r|
      ensures codec.parse(r[i].start) == Some(Instant(startTime, interval, i))
      ensures codec.parse(r[i].end) == Some(Instant(startTime, interval, i + 1))
    {
      assert r[i] == IntendedWindow(sorted[i], i, startTime, interval, codec);
    }
  }

  /** The fetched ends the as-written loop chains off (indices 1 to n - 2) are the intended ones. */
  ghost predicate FetchedEndsCurrent(sorted: seq<Circle>, startTime: int, interval: int, codec: TimeCodec)
  {
    forall i :: 1 <= i < |sorted| - 1 ==> sorted[i].end == codec.format(Instant(startTime, interval, i + 1))
  }

  /** When every fetched end the loop chains off is already the intended one, the code is right. */
  lemma AsWrittenIntendedWhenEndsCurrent(sorted: seq<Circle>, startTime: int, interval: int, codec: TimeCodec)
    requires RoundTripsOn(codec, startTime, interval, |sorted|) && |sorted| > 0
    requires FetchedEndsCurrent(sorted, startTime, interval, codec)
    ensures AsWritten(sorted, startTime, interval, codec) == Emission(Intended(sorted, startTime, interval, codec), None)
  {
    var e := AsWritten(sorted, startTime, interval, codec);
    var a := OpenFirst(sorted, startTime, interval, codec);
    var r := Intended(sorted, startTime, interval, codec);
    AsWrittenShape(sorted, startTime, interval, codec);
    assert Instant(startTime, interval, 0) == startTime;
    assert a[0].end == codec.format(Instant(startTime, interval, 0 + 1));
    assert forall i :: 0 <= i < |sorted| - 1 ==> a[i].end == codec.format(Instant(startTime, interval, i + 1));
    assert forall i :: 0 <= i < |sorted| - 1 ==> codec.parse(a[i].end).Some?;
    assert |e.updates| == |sorted|;
    forall i | 1 <= i < |sorted|
      ensures e.updates[i] == r[i]
    {
      assert codec.parse(a[i - 1].end) == Some(Instant(startTime, interval, i));
      assert Instant(startTime, interval, i) + interval == Instant(startTime, interval, i + 1);
    }
    assert e.updates == r;
  }

  /** When some fetched end the loop chains off is not the intended one, the code is wrong. */
  lemma AsWrittenNotIntendedWhenEndStale(sorted: seq<Circle>, startTime: int, interval: int, codec: TimeCodec, i: nat)
    requires |sorted| > 0 && 1 <= i < |sorted| - 1
    requires sorted[i].end != codec.format(Instant(startTime, interval, i + 1))
    ensures AsWritten(sorted, startTime, interval, codec) != Emission(Intended(sorted, startTime, interval, codec), None)
  {
    var e := AsWritten(sorted, startTime, interval, codec);
    var a := OpenFirst(sorted, startTime, interval, codec);
    var r := Intended(sorted, startTime, interval, codec);
    AsWrittenShape(sorted, startTime, interval, codec);
    assert r[i + 1].start == codec.format(Instant(startTime, interval, i + 1));
    if |e.updates| > i + 1 {
      assert e.updates[i + 1].start == a[i].end == sorted[i].end;
    }
  }

  /**
   * The code as written produces the intended schedule exactly when every
   * circle it chains off was fetched already holding its intended end: after
   * a run that stored every intended end, with ties sorted the same way, it
   * is right; from circles without those ends (a first run, or a change of
   * start or interval) it is not.
   */
  lemma AsWrittenIsIntendedIff(sorted: seq<Circle>, startTime: int, interval: int, codec: TimeCodec)
    requires RoundTripsOn(codec, startTime, interval, |sorted|) && |sorted| > 0
    ensures AsWritten(sorted, startTime, interval, codec) == Emission(Intended(sorted, startTime, interval, codec), None)
        <==> FetchedEndsCurrent(sorted, startTime, interval, codec)
  {
    if FetchedEndsCurrent(sorted, startTime, interval, codec) {
      AsWrittenIntendedWhenEndsCurrent(sorted, startTime, interval, codec);
    } else {
      var i :| 1 <= i < |sorted| - 1 && sorted[i].end != codec.format(Instant(startTime, interval, i + 1));
      AsWrittenNotIntendedWhenEndStale(sorted, startTime, interval, codec, i);
    }
  }
}
