/** The chart's time windows and the filter that keeps the samples inside one. */
module TimeRange {
  import opened Sequences
  import opened Api

  /** Displayed as "1D", "1W", "1M", "1Y" and "All Time". */
  datatype Range = Day | Week | Month | Year | All

  /** `Number.MAX_SAFE_INTEGER`, 2^53 - 1. */
  const MAX_SAFE_INTEGER: int := 0x1F_FFFF_FFFF_FFFF

  const SECONDS_PER_DAY: int := 86400

  /** The width of a window in seconds: one day, seven days, thirty days, 365 days, or
      the largest safe integer for "All Time". */
  function RangeToSeconds(range: Range): (seconds: int)
    ensures range == Day ==> seconds == SECONDS_PER_DAY
    ensures range == Week ==> seconds == 7 * SECONDS_PER_DAY
    ensures range == Month ==> seconds == 30 * SECONDS_PER_DAY
    ensures range == Year ==> seconds == 365 * SECONDS_PER_DAY
    ensures range == All ==> seconds == MAX_SAFE_INTEGER
  {
    match range
    case Day => 86400
    case Week => 604800
    case Month => 2592000
    case Year => 31536000
    case All => MAX_SAFE_INTEGER
  }

  /** The position of a window in the chart's list, shortest first. */
  function Rank(range: Range): nat {
    match range
    case Day => 0
    case Week => 1
    case Month => 2
    case Year => 3
    case All => 4
  }

  /** Wider windows have strictly more seconds. */
  lemma RangeToSecondsIncreasing(a: Range, b: Range)
    requires Rank(a) < Rank(b)
    ensures 0 < RangeToSeconds(a) < RangeToSeconds(b)
  {
  }

  /** The filter's test: the sample is at most `offset` seconds older than `currentTime`;
      a sample exactly on the boundary is kept. */
  predicate Within(rating: Rating, offset: int, currentTime: int) {
    currentTime - rating.time <= offset
  }

  /** `ratings.filter(...)` with the test above. */
  function KeepWithin(ratings: seq<Rating>, offset: int, currentTime: int): (kept: seq<Rating>)
    ensures IsSubsequence(kept, ratings)
    ensures forall r :: r in kept <==> r in ratings && Within(r, offset, currentTime)
    ensures forall i :: 0 <= i < |kept| ==> Within(kept[i], offset, currentTime)
    decreases |ratings|
  {
    if ratings == [] then []
    else
      var rest := KeepWithin(ratings[1..], offset, currentTime);
      assert forall r :: r in ratings <==> r == ratings[0] || r in ratings[1..];
      if Within(ratings[0], offset, currentTime) then [ratings[0]] + rest else rest
  }

  /** `applyTimeRange`. */
  function ApplyTimeRange(ratings: seq<Rating>, timeRange: Range, currentTime: int): seq<Rating> {
    KeepWithin(ratings, RangeToSeconds(timeRange), currentTime)
  }

  /** A sample is kept iff it lies in the window; the result is an order-preserving
      subsequence, no longer than the input. */
  lemma ApplyTimeRangeSpec(ratings: seq<Rating>, timeRange: Range, currentTime: int)
    ensures var kept := ApplyTimeRange(ratings, timeRange, currentTime);
      && IsSubsequence(kept, ratings)
      && |kept| <= |ratings|
      && forall r :: r in kept <==> r in ratings && currentTime - r.time <= RangeToSeconds(timeRange)
  {
    SubsequenceMembers(ApplyTimeRange(ratings, timeRange, currentTime), ratings);
  }

  /** Every duplicate of a kept sample is kept, every duplicate of a dropped one dropped. */
  lemma {:induction false} KeepWithinCounts(ratings: seq<Rating>, offset: int, currentTime: int, r: Rating)
    ensures multiset(KeepWithin(ratings, offset, currentTime))[r] ==
            if Within(r, offset, currentTime) then multiset(ratings)[r] else 0
    decreases |ratings|
  {
    if ratings != [] {
      KeepWithinCounts(ratings[1..], offset, currentTime, r);
      assert ratings == [ratings[0]] + ratings[1..];
    }
  }

  /** When every sample lies in the window, nothing is dropped. */
  lemma {:induction false} KeepWithinAll(ratings: seq<Rating>, offset: int, currentTime: int)
    requires forall i :: 0 <= i < |ratings| ==> Within(ratings[i], offset, currentTime)
    ensures KeepWithin(ratings, offset, currentTime) == ratings
    decreases |ratings|
  {
    if ratings != [] {
      KeepWithinAll(ratings[1..], offset, currentTime);
      assert ratings == [ratings[0]] + ratings[1..];
    }
  }

  /** "All Time" returns its input unchanged whenever no sample is older than the largest
      safe integer, in particular the empty input. */
  lemma ApplyAllTime(ratings: seq<Rating>, currentTime: int)
    requires forall i :: 0 <= i < |ratings| ==> currentTime - ratings[i].time <= MAX_SAFE_INTEGER
    ensures ApplyTimeRange(ratings, All, currentTime) == ratings
  {
    KeepWithinAll(ratings, MAX_SAFE_INTEGER, currentTime);
  }

  /** Filtering with a window and then with a narrower one is filtering with the narrower one;
      in particular filtering twice with the same window is filtering once. */
  lemma {:induction false} KeepWithinNarrowing(ratings: seq<Rating>, small: int, large: int, currentTime: int)
    requires small <= large
    ensures KeepWithin(KeepWithin(ratings, large, currentTime), small, currentTime) ==
            KeepWithin(ratings, small, currentTime)
    decreases |ratings|
  {
    if ratings != [] {
      KeepWithinNarrowing(ratings[1..], small, large, currentTime);
    }
  }

  lemma ApplyTimeRangeIdempotent(ratings: seq<Rating>, timeRange: Range, currentTime: int)
    ensures ApplyTimeRange(ApplyTimeRange(ratings, timeRange, currentTime), timeRange, currentTime) ==
            ApplyTimeRange(ratings, timeRange, currentTime)
  {
    var offset := RangeToSeconds(timeRange);
    KeepWithinNarrowing(ratings, offset, offset, currentTime);
  }

  /** A wider window keeps every sample a narrower one keeps, in the same order. */
  lemma ApplyTimeRangeMonotone(ratings: seq<Rating>, narrow: Range, wide: Range, currentTime: int)
    requires Rank(narrow) <= Rank(wide)
    ensures IsSubsequence(ApplyTimeRange(ratings, narrow, currentTime),
                          ApplyTimeRange(ratings, wide, currentTime))
  {
    var small, large := RangeToSeconds(narrow), RangeToSeconds(wide);
    KeepWithinNarrowing(ratings, small, large, currentTime);
  }

  /** The boundary cases pinned down by the tests: with the reference time 100 seconds past
      one window width, the samples at 100 and 150 are kept and the one at 0 is dropped. */
  lemma BoundaryExample(timeRange: Range, e0: real, e1: real, e2: real)
    ensures var now := RangeToSeconds(timeRange) + 100;
      ApplyTimeRange([Rating(0, e0), Rating(100, e1), Rating(150, e2)], timeRange, now) ==
      [Rating(100, e1), Rating(150, e2)]
  {
    var offset := RangeToSeconds(timeRange);
    var ratings := [Rating(0, e0), Rating(100, e1), Rating(150, e2)];
    assert ratings[1..] == [Rating(100, e1), Rating(150, e2)];
    KeepWithinAll(ratings[1..], offset, offset + 100);
  }

  /** With the reference time 100, every window keeps samples at times 0, 1 and 2. */
  lemma RecentExample(timeRange: Range, e0: real, e1: real, e2: real)
    ensures ApplyTimeRange([Rating(0, e0), Rating(1, e1), Rating(2, e2)], timeRange, 100) ==
      [Rating(0, e0), Rating(1, e1), Rating(2, e2)]
  {
    KeepWithinAll([Rating(0, e0), Rating(1, e1), Rating(2, e2)], RangeToSeconds(timeRange), 100);
  }
}
