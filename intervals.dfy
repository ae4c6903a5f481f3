/** Interval statistics for recurring-payment detection: the frequency buckets,
    the median, the mode and the standard deviation. */
module Intervals {
  import opened Common
  import opened Sorting
  import opened Db

  /** The nominal period of each frequency, in days. */
  function FrequencyToDays(f: Frequency): (days: int)
    ensures 7 <= days <= 365
  {
    match f
    case Weekly => 7
    case BiWeekly => 14
    case Monthly => 30
    case BiMonthly => 60
    case Quarterly => 90
    case SemiAnnual => 182
    case Yearly => 365
  }

  /** One bucket: a median gap in [min, max] days means `frequency`. */
  datatype FrequencyRange = FrequencyRange(min: int, max: int, frequency: Frequency)

  /** The buckets, tried in this order. */
  const FrequencyRanges: seq<FrequencyRange> := [
    FrequencyRange(5, 9, Weekly),
    FrequencyRange(12, 18, BiWeekly),
    FrequencyRange(25, 38, Monthly),
    FrequencyRange(55, 70, BiMonthly),
    FrequencyRange(80, 105, Quarterly),
    FrequencyRange(160, 200, SemiAnnual),
    FrequencyRange(340, 395, Yearly)
  ]

  predicate InRange(r: FrequencyRange, d: real) {
    r.min as real <= d <= r.max as real
  }

  /** The bucket of frequency `f`. */
  function RangeOf(f: Frequency): (r: FrequencyRange)
    ensures r in FrequencyRanges && r.frequency == f
  {
    match f
    case Weekly => FrequencyRanges[0]
    case BiWeekly => FrequencyRanges[1]
    case Monthly => FrequencyRanges[2]
    case BiMonthly => FrequencyRanges[3]
    case Quarterly => FrequencyRanges[4]
    case SemiAnnual => FrequencyRanges[5]
    case Yearly => FrequencyRanges[6]
  }

  /** The buckets are listed in ascending order and are pairwise disjoint, with
      gaps between neighbours. */
  lemma RangesAscending()
    ensures forall i, j :: 0 <= i < j < |FrequencyRanges| ==> FrequencyRanges[i].max < FrequencyRanges[j].min
    ensures forall i :: 0 <= i < |FrequencyRanges| ==> FrequencyRanges[i].min <= FrequencyRanges[i].max
    ensures forall i :: 0 <= i < |FrequencyRanges| ==> FrequencyRanges[i] == RangeOf(FrequencyRanges[i].frequency)
  {
  }

  /** At most one bucket contains any value. */
  lemma {:induction false} RangesDisjoint(d: real, f: Frequency, g: Frequency)
    requires InRange(RangeOf(f), d) && InRange(RangeOf(g), d)
    ensures f == g
  {
    RangesAscending();
  }

  /** The outcome of looking a median gap up in the buckets: the frequency of
      the bucket found, or none (`daysToFrequency` returns `null`). */
  datatype FrequencyMatch = NoFrequency | Found(frequency: Frequency)

  /** The frequency of the first bucket in `ranges` that contains `d`. */
  function FirstContaining(ranges: seq<FrequencyRange>, d: real): FrequencyMatch
  {
    if ranges == [] then NoFrequency
    else if InRange(ranges[0], d) then Found(ranges[0].frequency)
    else FirstContaining(ranges[1..], d)
  }

  /** `FirstContaining` finds a bucket that contains `d`, and finds none only
      when no bucket contains it. */
  lemma {:induction false} FirstContainingFinds(ranges: seq<FrequencyRange>, d: real)
    ensures FirstContaining(ranges, d).Found? ==>
      exists i :: 0 <= i < |ranges| && InRange(ranges[i], d) && ranges[i].frequency == FirstContaining(ranges, d).frequency
    ensures FirstContaining(ranges, d).NoFrequency? ==> forall i :: 0 <= i < |ranges| ==> !InRange(ranges[i], d)
  {
    if ranges != [] && !InRange(ranges[0], d) {
      FirstContainingFinds(ranges[1..], d);
      if FirstContaining(ranges, d).Found? {
        var i :| 0 <= i < |ranges[1..]| && InRange(ranges[1..][i], d) && ranges[1..][i].frequency == FirstContaining(ranges, d).frequency;
        assert ranges[i + 1] == ranges[1..][i];
      } else {
        forall i | 1 <= i < |ranges| ensures !InRange(ranges[i], d) {
          assert ranges[i] == ranges[1..][i - 1];
        }
      }
    }
  }

  /** The frequency a median gap maps to: since the buckets are disjoint, the
      first bucket containing `d` is the only one, and there is none exactly
      when `d` falls outside every bucket. */
  lemma FrequencyForIff(d: real, f: Frequency)
    ensures FirstContaining(FrequencyRanges, d) == Found(f) <==> InRange(RangeOf(f), d)
    ensures FirstContaining(FrequencyRanges, d).NoFrequency? <==> forall g :: !InRange(RangeOf(g), d)
  {
    RangesAscending();
    FirstContainingFinds(FrequencyRanges, d);
    var r := RangeOf(f);
    var k :| 0 <= k < |FrequencyRanges| && FrequencyRanges[k] == r;
    if FirstContaining(FrequencyRanges, d).Found? {
      var i :| 0 <= i < |FrequencyRanges| && InRange(FrequencyRanges[i], d)
        && FrequencyRanges[i].frequency == FirstContaining(FrequencyRanges, d).frequency;
      if InRange(RangeOf(f), d) {
        RangesDisjoint(d, f, FrequencyRanges[i].frequency);
      }
      assert InRange(RangeOf(FrequencyRanges[i].frequency), d);
    } else {
      forall g ensures !InRange(RangeOf(g), d) {
        var j :| 0 <= j < |FrequencyRanges| && FrequencyRanges[j] == RangeOf(g);
      }
    }
  }

  /** `daysToFrequency`: scans the buckets in order and returns the frequency
      of the first one containing `medianDays`, or none. */
  method DaysToFrequency(medianDays: real) returns (f: FrequencyMatch)
    ensures f == FirstContaining(FrequencyRanges, medianDays)
  {
    var i := 0;
    while i < |FrequencyRanges|
      invariant 0 <= i <= |FrequencyRanges|
      invariant FirstContaining(FrequencyRanges[i..], medianDays) == FirstContaining(FrequencyRanges, medianDays)
    {
      var range := FrequencyRanges[i];
      if medianDays >= range.min as real && medianDays <= range.max as real {
        return Found(range.frequency);
      }
      assert FrequencyRanges[i..][1..] == FrequencyRanges[i + 1..];
      i := i + 1;
    }
    return NoFrequency;
  }

  /** Round trip: the nominal period of `f` lies in `f`'s own bucket and in no
      other, so `daysToFrequency(frequencyToDays[f]) == f`. */
  lemma FrequencyRoundTrip(f: Frequency, g: Frequency)
    ensures InRange(RangeOf(f), FrequencyToDays(f) as real)
    ensures InRange(RangeOf(g), FrequencyToDays(f) as real) <==> g == f
  {
    if InRange(RangeOf(g), FrequencyToDays(f) as real) {
      RangesDisjoint(FrequencyToDays(f) as real, f, g);
    }
  }

  /** Values in the gaps between buckets map to no frequency. */
  lemma FrequencyGaps(d: real, g: Frequency)
    requires d < 5.0 || (9.0 < d < 12.0) || (18.0 < d < 25.0) || (38.0 < d < 55.0)
          || (70.0 < d < 80.0) || (105.0 < d < 160.0) || (200.0 < d < 340.0) || d > 395.0
    ensures !InRange(RangeOf(g), d)
  {
  }

  // ---------------------------------------------------------------------
  // median

  /** `median`: 0 for no values, otherwise the middle of the sorted copy, or the
      mean of the two middle values for an even count. */
  function Median(nums: seq<int>): (m: real)
    ensures nums == [] ==> m == 0.0
    ensures nums != [] ==> exists i :: 0 <= i < |nums| && nums[i] as real <= m
    ensures nums != [] ==> exists i :: 0 <= i < |nums| && m <= nums[i] as real
  {
    if nums == [] then 0.0
    else
      var sorted := SortInts(nums);
      var mid := |sorted| / 2;
      assert sorted[mid] in multiset(nums);
      assert sorted[if |sorted| % 2 == 0 then mid - 1 else mid] in multiset(nums);
      if |sorted| % 2 == 0 then
        assert IntKey(sorted[mid - 1]) <= IntKey(sorted[mid]);
        (sorted[mid - 1] + sorted[mid]) as real / 2.0
      else sorted[mid] as real
  }

  /** The median lies between the smallest and the largest value. */
  lemma {:induction false} MedianBounds(nums: seq<int>, lo: int, hi: int)
    requires forall i :: 0 <= i < |nums| ==> lo <= nums[i] <= hi
    requires nums != []
    ensures lo as real <= Median(nums) <= hi as real
  {
    var m := Median(nums);
    var i :| 0 <= i < |nums| && nums[i] as real <= m;
    var j :| 0 <= j < |nums| && m <= nums[j] as real;
  }

  /** The median only depends on the values, not on their order; the argument
      itself is never reordered because the sort works on a copy. */
  lemma MedianPermutationInvariant(s: seq<int>, t: seq<int>)
    requires multiset(s) == multiset(t)
    ensures Median(s) == Median(t)
  {
    SortIntsPermutationInvariant(s, t);
    assert |s| == |multiset(s)| == |multiset(t)| == |t|;
  }

  /** A list of one repeated value has that value as its median. */
  lemma MedianOfConstant(nums: seq<int>, c: int)
    requires nums != [] && forall i :: 0 <= i < |nums| ==> nums[i] == c
    ensures Median(nums) == c as real
  {
    MedianBounds(nums, c, c);
  }

  // ---------------------------------------------------------------------
  // standard deviation

  function Mean(nums: seq<int>): real
    requires nums != []
  {
    Sum(nums) as real / |nums| as real
  }

  function SquaredDeviations(nums: seq<int>, avg: real): (r: real)
    ensures r >= 0.0
  {
    if nums == [] then 0.0
    else SquaredDeviations(nums[..|nums| - 1], avg) + (nums[|nums| - 1] as real - avg) * (nums[|nums| - 1] as real - avg)
  }

  /** The population variance. */
  function Variance(nums: seq<int>): (v: real)
    requires nums != []
    ensures v >= 0.0
  {
    SquaredDeviations(nums, Mean(nums)) / |nums| as real
  }

  /** `standardDeviation`: 0 for fewer than two values, otherwise the square
      root of the population variance; `sqrt` is the floating-point square root. */
  function StandardDeviation(nums: seq<int>, sqrt: real -> real): (sd: real)
    ensures |nums| < 2 ==> sd == 0.0
    ensures |nums| >= 2 ==> sd == sqrt(Variance(nums))
  {
    if |nums| < 2 then 0.0 else sqrt(Variance(nums))
  }

  // ---------------------------------------------------------------------
  // mode

  function Count<T(==)>(s: seq<T>, x: T): nat {
    multiset(s)[x]
  }

  /** The largest number of occurrences of any value in `s`. */
  function MaxCount<T(==)>(s: seq<T>): nat
    decreases |s|
  {
    if s == [] then 0
    else
      var prev := MaxCount(s[..|s| - 1]);
      var c := Count(s, s[|s| - 1]);
      if c > prev then c else prev
  }

  /** `MaxCount` bounds every count and is reached by some element. */
  lemma {:induction false} MaxCountIsMaximum<T>(s: seq<T>)
    ensures forall x :: Count(s, x) <= MaxCount(s)
    ensures s != [] ==> exists i :: 0 <= i < |s| && Count(s, s[i]) == MaxCount(s)
    ensures s == [] ==> MaxCount(s) == 0
    decreases |s|
  {
    if s != [] {
      var init, last := s[..|s| - 1], s[|s| - 1];
      assert s == init + [last];
      MaxCountIsMaximum(init);
      var prev := MaxCount(init);
      var c := Count(s, last);
      assert forall x :: Count(s, x) == Count(init, x) + (if x == last then 1 else 0);
      assert c >= 1;
      if c <= prev {
        assert init != [];
        var i :| 0 <= i < |init| && Count(init, init[i]) == prev;
        assert s[i] == init[i];
      }
    }
  }

  lemma CountPrefixStep<T>(s: seq<T>, i: int, x: T)
    requires 0 <= i < |s|
    ensures Count(s[..i + 1], x) == Count(s[..i], x) + (if s[i] == x then 1 else 0)
  {
    assert s[..i + 1] == s[..i] + [s[i]];
  }

  lemma {:induction false} CountPrefixMonotone<T>(s: seq<T>, i: int, x: T)
    requires 0 <= i <= |s|
    ensures Count(s[..i], x) <= Count(s, x)
  {
    assert s == s[..i] + s[i..];
  }

  /** The first position at which some value has been seen `m` times, if any. */
  predicate FirstToReach<T(==)>(s: seq<T>, j: int, m: nat) {
    0 <= j < |s| && Count(s[..j + 1], s[j]) == m
    && forall k :: 0 <= k < j ==> Count(s[..k + 1], s[k]) < m
  }

  /** A value whose running count exceeds every earlier count is the first to
      reach its count. */
  lemma NewLeader<T>(items: seq<T>, i: int)
    requires 0 <= i < |items|
    requires Count(items[..i + 1], items[i]) > MaxCount(items[..i])
    ensures FirstToReach(items, i, Count(items[..i + 1], items[i]))
  {
    MaxCountIsMaximum(items[..i]);
    forall k | 0 <= k < i ensures Count(items[..k + 1], items[k]) < Count(items[..i + 1], items[i]) {
      CountPrefixMonotone(items[..i], k + 1, items[k]);
      assert items[..i][..k + 1] == items[..k + 1];
    }
  }

  /** One more item raises the maximum count to that item's new count, if larger. */
  lemma MaxCountStep<T>(items: seq<T>, i: int)
    requires 0 <= i < |items|
    ensures MaxCount(items[..i + 1]) ==
      if Count(items[..i + 1], items[i]) > MaxCount(items[..i]) then Count(items[..i + 1], items[i])
      else MaxCount(items[..i])
  {
    assert items[..i + 1][..i] == items[..i];
  }

  /** The running count of `x` kept in the counts map (absent means zero). */
  function CountIn<T(==)>(counts: map<T, nat>, x: T): nat {
    if x in counts then counts[x] else 0
  }

  /** Bumping the current item's entry keeps the counts map equal to the counts
      of the scanned prefix. */
  lemma CountsStep<T>(counts: map<T, nat>, counts': map<T, nat>, items: seq<T>, i: int)
    requires 0 <= i < |items|
    requires forall x :: CountIn(counts, x) == Count(items[..i], x)
    requires counts' == counts[items[i] := CountIn(counts, items[i]) + 1]
    ensures forall x :: CountIn(counts', x) == Count(items[..i + 1], x)
  {
    forall x ensures CountIn(counts', x) == Count(items[..i + 1], x) {
      CountPrefixStep(items, i, x);
    }
  }

  /** `r` is what `mode` returns for `items`: none for an empty list; otherwise
      a most frequent value, and among equally frequent values the one that
      first reaches that count while scanning from the left. */
  predicate IsMode<T(==)>(items: seq<T>, r: Option<T>) {
    (r.None? <==> items == [])
    && (r.Some? ==> r.value in items)
    && (r.Some? ==> forall i :: 0 <= i < |items| ==> Count(items, items[i]) <= Count(items, r.value))
    && (r.Some? ==> exists j :: 0 <= j < |items| && FirstToReach(items, j, Count(items, r.value)) && items[j] == r.value)
  }

  /** The first value to reach the largest count is the mode. */
  lemma LeaderIsMode<T>(items: seq<T>, at: int)
    requires 0 <= at < |items| && FirstToReach(items, at, MaxCount(items))
    ensures IsMode(items, Some(items[at]))
  {
    MaxCountIsMaximum(items);
    CountPrefixMonotone(items, at + 1, items[at]);
  }

  /** `mode`: none for an empty list; otherwise a most frequent value, and among
      equally frequent values the one that first reaches that count while
      scanning from the left (a later value must exceed the count to win). */
  method Mode<T(==)>(items: seq<T>) returns (r: Option<T>)
    ensures IsMode(items, r)
  {
    if |items| == 0 {
      return None;
    }
    var counts: map<T, nat> := map[];
    var maxCount: nat := 0;
    var maxItem := items[0];
    ghost var at := 0;
    var i := 0;
    while i < |items|
      invariant 0 <= i <= |items|
      invariant forall x :: CountIn(counts, x) == Count(items[..i], x)
      invariant maxCount == MaxCount(items[..i])
      invariant i > 0 ==> at < i && FirstToReach(items, at, maxCount) && items[at] == maxItem
      invariant i == 0 ==> maxCount == 0
    {
      var item := items[i];
      var count := CountIn(counts, item) + 1;
      CountPrefixStep(items, i, item);
      MaxCountStep(items, i);
      ghost var before := counts;
      counts := counts[item := count];
      CountsStep(before, counts, items, i);
      if count > maxCount {
        NewLeader(items, i);
        maxCount := count;
        maxItem := item;
        at := i;
      }
      i := i + 1;
    }
    assert items[..i] == items;
    LeaderIsMode(items, at);
    r := Some(maxItem);
  }
}
