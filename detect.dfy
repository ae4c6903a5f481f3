/** Recurring-payment detection: the last twelve months of a household's
    transactions are grouped by normalised description; every group of at
    least three whose median gap matches a frequency bucket, and whose
    confidence reaches the threshold, is upserted as a recurring pattern. */
module Detect {
  import opened Common
  import opened Sorting
  import opened Grouping
  import opened Calendar
  import opened Db
  import opened Intervals

  const MinOccurrences: nat := 3
  const MinConfidence: real := 0.7

  /** The columns the detection query selects from a transaction. */
  datatype DetectTx = DetectTx(description: string, amount: int, date: int, categoryId: Option<string>, accountId: string)

  function Project(row: TxRow): (t: DetectTx)
    ensures t.date == row.date && t.description == row.description
  {
    DetectTx(row.description, row.amount, row.date, row.categoryId, row.accountId)
  }

  /** `daysBetween`: the distance between two days, whichever comes first. */
  function DaysBetween(a: int, b: int): (d: nat)
    ensures a + d == b || b + d == a
  {
    if a <= b then b - a else a - b
  }

  // ---------------------------------------------------------------------
  // the query

  /** The start of the twelve-month window: `setMonth(getMonth() - 12)` on
      today's date `(year, month, day)` (month 0-based). */
  function Cutoff(year: int, month: int, day: int): (c: int)
    ensures c == MakeDay(year - 1, month, day)
  {
    MonthCarry(year - 1, month - 12, 1);
    MakeDay(year, month - 12, day)
  }

  /** The window is a whole year: it starts 365 or 366 days before today. */
  lemma {:induction false} CutoffOneYearBack(year: int, month: int, day: int)
    requires 0 <= month < 12
    ensures 365 <= MakeDay(year, month, day) - Cutoff(year, month, day) <= 366
  {
    FirstOfMonthInYear(year, month);
    FirstOfMonthInYear(year - 1, month);
    NextYearStart(year - 1);
    LeapShift(year, year - 1, month);
  }

  /** The same month starts at the same offset into any two years, except
      that from March on a leap year adds a day. */
  lemma LeapShift(y1: int, y2: int, m: int)
    requires 0 <= m < 12
    ensures DaysBeforeMonth(y1, m) - DaysBeforeMonth(y2, m) ==
      if m < 2 then 0 else (if IsLeapYear(y1) then 1 else 0) - (if IsLeapYear(y2) then 1 else 0)
  {
  }

  /** The selection `where householdId = h and date >= cutoff order by date`,
      as the ids of the rows in the order the database returns them. */
  predicate IsRecentQuery(rows: map<string, TxRow>, order: seq<string>, householdId: string, cutoff: int) {
    (forall i, j :: 0 <= i < j < |order| ==> order[i] != order[j])
    && (forall i :: 0 <= i < |order| ==> order[i] in rows && rows[order[i]].householdId == householdId && rows[order[i]].date >= cutoff)
    && (forall id :: id in rows && rows[id].householdId == householdId && rows[id].date >= cutoff ==> id in order)
    && (forall i, j :: 0 <= i < j < |order| ==> rows[order[i]].date <= rows[order[j]].date)
  }

  /** The selected columns of the rows `order` names, in that order. */
  function Selected(rows: map<string, TxRow>, order: seq<string>): (txns: seq<DetectTx>)
    requires forall i :: 0 <= i < |order| ==> order[i] in rows
    ensures |txns| == |order|
    ensures forall i :: 0 <= i < |order| ==> txns[i] == Project(rows[order[i]])
  {
    if order == [] then [] else Selected(rows, order[..|order| - 1]) + [Project(rows[order[|order| - 1]])]
  }

  // ---------------------------------------------------------------------
  // one group

  /** The grouping key: the description trimmed and lower-cased. */
  function Normalize(description: string): string {
    Lower(Trim(description))
  }

  function NormalizedKey(t: DetectTx): string {
    Normalize(t.description)
  }

  function DateKey(t: DetectTx): int {
    t.date
  }

  /** The gaps, in days, between consecutive transactions of a group. */
  function Gaps(group: seq<DetectTx>): (gaps: seq<int>)
    ensures |gaps| == if |group| < 2 then 0 else |group| - 1
    ensures forall i :: 0 <= i < |gaps| ==> gaps[i] == DaysBetween(group[i + 1].date, group[i].date)
  {
    if |group| < 2 then []
    else Gaps(group[..|group| - 1]) + [DaysBetween(group[|group| - 1].date, group[|group| - 2].date)]
  }

  /** On a group in date order the gaps add up to the span from the first to
      the last transaction. */
  lemma {:induction false} GapsSpan(group: seq<DetectTx>)
    requires |group| >= 1 && SortedBy(group, DateKey)
    ensures Sum(Gaps(group)) == group[|group| - 1].date - group[0].date
    decreases |group|
  {
    if |group| >= 2 {
      var init := group[..|group| - 1];
      assert SortedBy(init, DateKey) by {
        forall i, j | 0 <= i < j < |init| ensures DateKey(init[i]) <= DateKey(init[j]) {
          assert init[i] == group[i] && init[j] == group[j];
        }
      }
      GapsSpan(init);
      assert DateKey(group[|group| - 2]) <= DateKey(group[|group| - 1]);
      assert Gaps(group) == Gaps(init) + [group[|group| - 1].date - group[|group| - 2].date];
      SumAppend(Gaps(init), [group[|group| - 1].date - group[|group| - 2].date]);
      assert Sum([group[|group| - 1].date - group[|group| - 2].date]) == group[|group| - 1].date - group[|group| - 2].date;
    }
  }

  /** The loop collecting the gaps between consecutive transactions. */
  method ComputeGaps(group: seq<DetectTx>) returns (gaps: seq<int>)
    ensures gaps == Gaps(group)
  {
    gaps := [];
    var i := 1;
    while i < |group|
      invariant 1 <= i && (|group| > 0 ==> i <= |group|)
      invariant |group| > 0 ==> gaps == Gaps(group[..i])
      invariant |group| == 0 ==> gaps == []
    {
      assert group[..i + 1][..i] == group[..i];
      gaps := gaps + [DaysBetween(group[i].date, group[i - 1].date)];
      i := i + 1;
    }
    if |group| > 0 {
      assert group[..i] == group;
    }
  }

  /** How regular the gaps are: 1 minus the deviation relative to the
      period, clamped to [0, 1]. */
  function Consistency(stddev: real, expectedDays: int): (c: real)
    requires expectedDays > 0
    ensures 0.0 <= c <= 1.0
    ensures stddev <= 0.0 ==> c == 1.0
  {
    var raw := 1.0 - stddev / expectedDays as real;
    if raw > 1.0 then 1.0 else if raw < 0.0 then 0.0 else raw
  }

  /** How many occurrences there are, saturating at six. */
  function CountScore(n: nat): (c: real)
    ensures 0.0 <= c <= 1.0
    ensures c == 1.0 <==> n >= 6
  {
    if n as real / 6.0 < 1.0 then n as real / 6.0 else 1.0
  }

  /** How recent the last occurrence is: 1 within two periods, then falling
      linearly to 0 at three periods. */
  function Recency(daysSinceLast: real, expectedDays: int): (c: real)
    requires expectedDays > 0
    ensures 0.0 <= c <= 1.0
    ensures daysSinceLast <= 2.0 * expectedDays as real ==> c == 1.0
    ensures daysSinceLast >= 3.0 * expectedDays as real ==> c == 0.0
  {
    if daysSinceLast <= expectedDays as real * 2.0 then 1.0
    else
      var raw := 1.0 - (daysSinceLast - expectedDays as real * 2.0) / expectedDays as real;
      if raw > 0.0 then raw else 0.0
  }

  /** The weighted confidence score, half consistency and a quarter each
      count and recency. */
  function Confidence(stddev: real, expectedDays: int, n: nat, daysSinceLast: real): (c: real)
    requires expectedDays > 0
    ensures 0.0 <= c <= 1.0
  {
    0.5 * Consistency(stddev, expectedDays) + 0.25 * CountScore(n) + 0.25 * Recency(daysSinceLast, expectedDays)
  }

  /** Perfectly regular gaps with a recent last occurrence always pass the
      threshold, whatever the group size (at least three). */
  lemma RegularRecentPasses(stddev: real, expectedDays: int, n: nat, daysSinceLast: real)
    requires expectedDays > 0 && n >= MinOccurrences
    requires stddev <= 0.0 && daysSinceLast <= 2.0 * expectedDays as real
    ensures Confidence(stddev, expectedDays, n, daysSinceLast) >= MinConfidence
  {
  }

  /** A stale group of at most four occurrences never passes the threshold. */
  lemma StaleSmallFails(stddev: real, expectedDays: int, n: nat, daysSinceLast: real)
    requires expectedDays > 0 && n <= 4
    requires daysSinceLast >= 3.0 * expectedDays as real
    ensures Confidence(stddev, expectedDays, n, daysSinceLast) < MinConfidence
  {
  }

  /** The outcome of the analysis of a group: its frequency and confidence. */
  datatype Assessment = Assessment(frequency: Frequency, confidence: real)

  /** The decision for one date-ordered group: none when it is too small, when
      its median gap falls in no bucket, or when the confidence is below the
      threshold. `today` is the current day. */
  function Assess(sorted: seq<DetectTx>, today: int, sqrt: real -> real): (a: Option<Assessment>)
    ensures a.Some? ==> |sorted| >= MinOccurrences
    ensures a.Some? ==> InRange(RangeOf(a.value.frequency), Median(Gaps(sorted)))
    ensures a.Some? ==> MinConfidence <= a.value.confidence <= 1.0
  {
    if |sorted| < MinOccurrences then None
    else
      var gaps := Gaps(sorted);
      if |gaps| == 0 then None
      else match FirstContaining(FrequencyRanges, Median(gaps))
        case NoFrequency => None
        case Found(f) =>
          FrequencyForIff(Median(gaps), f);
          var expectedDays := FrequencyToDays(f);
          var c := Confidence(StandardDeviation(gaps, sqrt), expectedDays, |sorted|,
                     DaysBetween(today, sorted[|sorted| - 1].date) as real);
          if c < MinConfidence then None else Some(Assessment(f, c))
  }

  /** The absolute amounts of a group. */
  function Amounts(group: seq<DetectTx>): (r: seq<int>)
    ensures |r| == |group|
    ensures forall i :: 0 <= i < |group| ==> r[i] >= 0 && (r[i] == group[i].amount || r[i] == -group[i].amount)
  {
    if group == [] then []
    else
      var x := group[|group| - 1].amount;
      Amounts(group[..|group| - 1]) + [if x < 0 then -x else x]
  }

  /** The category ids of a group that are set, in order. */
  function CategoryIds(group: seq<DetectTx>): (r: seq<string>)
    ensures |r| <= |group|
    ensures forall c :: c in r <==> exists i :: 0 <= i < |group| && group[i].categoryId == Some(c)
  {
    if group == [] then []
    else
      var init := group[..|group| - 1];
      assert forall i :: 0 <= i < |init| ==> init[i] == group[i];
      CategoryIds(init) + match group[|group| - 1].categoryId { case None => [] case Some(c) => [c] }
  }

  /** The account ids of a group, in order. */
  function AccountIds(group: seq<DetectTx>): (r: seq<string>)
    ensures |r| == |group|
    ensures forall i :: 0 <= i < |group| ==> r[i] == group[i].accountId
  {
    if group == [] then [] else AccountIds(group[..|group| - 1]) + [group[|group| - 1].accountId]
  }

  /** A detected pattern: the description to upsert under and its values. */
  datatype Detection = Detection(description: string, values: PatternValues)

  /** `v` is what the detection writes for `group` under `description`: the
      group passes, the description is that of its latest transaction, the
      expected amount is the median absolute amount, category and account are
      the modes, and the next date is one period after the latest. */
  ghost predicate Describes(group: seq<DetectTx>, today: int, sqrt: real -> real, description: string, v: PatternValues) {
    var sorted := SortBy(group, DateKey);
    var a := Assess(sorted, today, sqrt);
    a.Some?
    && description == sorted[|sorted| - 1].description
    && v.frequency == a.value.frequency && v.confidence == a.value.confidence
    && v.expectedAmount == Median(Amounts(sorted))
    && IsMode(CategoryIds(sorted), v.categoryId)
    && IsMode(AccountIds(sorted), v.accountId)
    && v.lastOccurrence == sorted[|sorted| - 1].date
    && v.nextExpectedDate == v.lastOccurrence + FrequencyToDays(v.frequency)
  }

  lemma DescribesIntro(group: seq<DetectTx>, today: int, sqrt: real -> real, sorted: seq<DetectTx>, a: Assessment,
                       last: DetectTx, v: PatternValues)
    requires sorted == SortBy(group, DateKey)
    requires Assess(sorted, today, sqrt) == Some(a)
    requires |sorted| > 0 && last == sorted[|sorted| - 1]
    requires v.frequency == a.frequency && v.confidence == a.confidence
    requires v.expectedAmount == Median(Amounts(sorted))
    requires IsMode(CategoryIds(sorted), v.categoryId)
    requires IsMode(AccountIds(sorted), v.accountId)
    requires v.lastOccurrence == last.date
    requires v.nextExpectedDate == v.lastOccurrence + FrequencyToDays(v.frequency)
    ensures Describes(group, today, sqrt, last.description, v)
  {
  }

  /** The interval part of the analysis of one date-ordered group: too few
      occurrences, no gaps, a median gap in no bucket or a low confidence give
      none; otherwise the frequency and the confidence. */
  method AssessIntervals(sorted: seq<DetectTx>, today: int, sqrt: real -> real) returns (a: Option<Assessment>)
    ensures a == Assess(sorted, today, sqrt)
  {
    if |sorted| < MinOccurrences {
      return None;
    }
    var gaps := ComputeGaps(sorted);
    if |gaps| == 0 {
      return None;
    }
    var medianInterval := Median(gaps);
    var frequency := DaysToFrequency(medianInterval);
    if frequency.NoFrequency? {
      return None;
    }
    var expectedDays := FrequencyToDays(frequency.frequency);
    var stddev := StandardDeviation(gaps, sqrt);
    var last := sorted[|sorted| - 1];
    var confidence := Confidence(stddev, expectedDays, |sorted|, DaysBetween(today, last.date) as real);
    if confidence < MinConfidence {
      return None;
    }
    return Some(Assessment(frequency.frequency, confidence));
  }

  /** The analysis of one group (the body of the loop over groups). */
  method AnalyzeGroup(group: seq<DetectTx>, today: int, sqrt: real -> real) returns (r: Option<Detection>)
    ensures r.Some? <==> Assess(SortBy(group, DateKey), today, sqrt).Some?
    ensures r.Some? ==> Describes(group, today, sqrt, r.value.description, r.value.values)
    ensures r.Some? ==> r.value.values.accountId.Some?
  {
    var sorted := SortBy(group, DateKey);
    var assessment := AssessIntervals(sorted, today, sqrt);
    if assessment.None? {
      return None;
    }
    var a := assessment.value;
    var last := sorted[|sorted| - 1];
    var expectedAmount := Median(Amounts(sorted));
    var categoryId := Mode(CategoryIds(sorted));
    var accountId := Mode(AccountIds(sorted));
    var nextExpectedDate := last.date + FrequencyToDays(a.frequency);
    var values := PatternValues(expectedAmount, a.frequency, categoryId, accountId, last.date, nextExpectedDate, a.confidence);
    DescribesIntro(group, today, sqrt, sorted, a, last, values);
    r := Some(Detection(last.description, values));
  }

  // ---------------------------------------------------------------------
  // the whole detection

  /** A pattern row as the detection over `txns` last wrote it. */
  ghost predicate Written(txns: seq<DetectTx>, today: int, sqrt: real -> real, row: PatternRow) {
    row.lastOccurrence.Some? && row.nextExpectedDate.Some?
    && Describes(Members(txns, NormalizedKey, Normalize(row.description)), today, sqrt, row.description, ValuesOf(row))
  }

  /** The description a group is written under normalises to the group's key,
      so the group is found again from the pattern row alone. */
  lemma GroupDescription(txns: seq<DetectTx>, k: string, today: int, sqrt: real -> real, d: string, v: PatternValues)
    requires Describes(Members(txns, NormalizedKey, k), today, sqrt, d, v)
    ensures Normalize(d) == k
  {
    var group := Members(txns, NormalizedKey, k);
    var sorted := SortBy(group, DateKey);
    var last := sorted[|sorted| - 1];
    assert last in multiset(sorted);
    assert last in group;
  }

  /** What one upsert changes: only rows of `householdId` under `description`,
      each then carrying exactly the upserted values. */
  lemma UpsertChanges(before: map<string, PatternRow>, after: map<string, PatternRow>,
                      householdId: string, description: string, v: PatternValues)
    requires after == RefreshedAll(before, householdId, description, v)
          || exists id :: id !in before && after == before[id := FreshPattern(householdId, description, v)]
    ensures forall id :: id in after && (id !in before || after[id] != before[id]) ==>
      after[id].householdId == householdId && after[id].description == description
      && after[id].lastOccurrence.Some? && after[id].nextExpectedDate.Some? && ValuesOf(after[id]) == v
  {
    forall id | id in after && (id !in before || after[id] != before[id])
      ensures after[id].householdId == householdId && after[id].description == description
      ensures after[id].lastOccurrence.Some? && after[id].nextExpectedDate.Some? && ValuesOf(after[id]) == v
    {
      ValuesOfRefreshed(if id in before then before[id] else after[id], v);
    }
  }

  /** The group of `txns` whose key is `k`, in date order. */
  function SortedGroup(txns: seq<DetectTx>, k: string): seq<DetectTx> {
    SortBy(Members(txns, NormalizedKey, k), DateKey)
  }

  /** If the group of key `k` passes, a pattern is listed under the
      description of its latest transaction. */
  predicate GroupListed(rows: map<string, PatternRow>, txns: seq<DetectTx>, today: int, sqrt: real -> real,
                        householdId: string, k: string) {
    var g := SortedGroup(txns, k);
    Assess(g, today, sqrt).Some? ==> PatternListed(rows, householdId, g[|g| - 1].description)
  }

  /** One more processed key keeps every processed group listed, given that
      the rows only grew and the new key's group, if it passes, is now listed. */
  lemma ListedStep(before: map<string, PatternRow>, after: map<string, PatternRow>, txns: seq<DetectTx>, today: int,
                   sqrt: real -> real, householdId: string, keys: seq<string>, i: int)
    requires 0 <= i < |keys|
    requires forall j :: 0 <= j < i ==> GroupListed(before, txns, today, sqrt, householdId, keys[j])
    requires forall id :: id in before ==>
      id in after && after[id].householdId == before[id].householdId && after[id].description == before[id].description
    requires GroupListed(after, txns, today, sqrt, householdId, keys[i])
    ensures forall j :: 0 <= j < i + 1 ==> GroupListed(after, txns, today, sqrt, householdId, keys[j])
  {
    forall j | 0 <= j < i
      ensures GroupListed(after, txns, today, sqrt, householdId, keys[j])
    {
      var g := SortedGroup(txns, keys[j]);
      if Assess(g, today, sqrt).Some? {
        assert GroupListed(before, txns, today, sqrt, householdId, keys[j]);
        PatternListedKept(before, after, householdId, g[|g| - 1].description);
      }
    }
  }

  /** A group that was written under `description` is listed once a pattern
      with that description exists. */
  lemma ListedNow(rows: map<string, PatternRow>, txns: seq<DetectTx>, today: int, sqrt: real -> real,
                  householdId: string, k: string, description: string, v: PatternValues)
    requires Describes(Members(txns, NormalizedKey, k), today, sqrt, description, v)
    requires PatternListed(rows, householdId, description)
    ensures GroupListed(rows, txns, today, sqrt, householdId, k)
  {
  }

  /** A new id adds one row. */
  lemma InsertedOne(before: map<string, PatternRow>, after: map<string, PatternRow>, householdId: string,
                    description: string, v: PatternValues)
    requires exists id :: id !in before && after == before[id := FreshPattern(householdId, description, v)]
    ensures |after| == |before| + 1
  {
    var id :| id !in before && after == before[id := FreshPattern(householdId, description, v)];
    assert after.Keys == before.Keys + {id};
  }

  /** A changed row of `householdId` written by the detection over `txns`. */
  ghost predicate WrittenFor(txns: seq<DetectTx>, today: int, sqrt: real -> real, householdId: string, row: PatternRow) {
    row.householdId == householdId && Written(txns, today, sqrt, row)
  }

  /** The body of the loop over the groups: analyse the group of key `k` and,
      when it passes, upsert its pattern. `inserted` tells whether a new row was
      added, `written` whether any row was. */
  method RecordGroup(patterns: PatternTable, txns: seq<DetectTx>, today: int, sqrt: real -> real,
                     householdId: string, k: string, group: seq<DetectTx>)
    returns (written: bool, inserted: bool)
    requires patterns.Valid()
    requires group == Members(txns, NormalizedKey, k)
    modifies patterns
    ensures patterns.Valid()
    ensures forall id :: id in old(patterns.rows) ==>
      id in patterns.rows
      && patterns.rows[id].householdId == old(patterns.rows)[id].householdId
      && patterns.rows[id].description == old(patterns.rows)[id].description
    ensures |patterns.rows| == |old(patterns.rows)| + (if inserted then 1 else 0)
    ensures inserted ==> written
    ensures !written ==> patterns.rows == old(patterns.rows)
    ensures forall id :: id in patterns.rows && (id !in old(patterns.rows) || patterns.rows[id] != old(patterns.rows)[id]) ==>
      WrittenFor(txns, today, sqrt, householdId, patterns.rows[id])
    ensures GroupListed(patterns.rows, txns, today, sqrt, householdId, k)
  {
    var result := AnalyzeGroup(group, today, sqrt);
    if result.None? {
      return false, false;
    }
    var d, v := result.value.description, result.value.values;
    GroupDescription(txns, k, today, sqrt, d, v);
    var existed := patterns.HasDescription(householdId, d);
    patterns.Upsert(householdId, d, v);
    UpsertChanges(old(patterns.rows), patterns.rows, householdId, d, v);
    ListedNow(patterns.rows, txns, today, sqrt, householdId, k, d, v);
    if !existed {
      InsertedOne(old(patterns.rows), patterns.rows, householdId, d, v);
    }
    written, inserted := true, !existed;
  }

  /** The loop over the groups of `txns`, in key order: each passing group's
      pattern is upserted. Rows of other households are untouched, no pattern
      is removed, every pattern written describes its group, every passing
      group has a pattern, and `detected` counts the new ones. */
  method RecordGroups(patterns: PatternTable, txns: seq<DetectTx>, today: int, sqrt: real -> real, householdId: string)
    returns (detected: nat, updated: nat)
    requires patterns.Valid()
    modifies patterns
    ensures patterns.Valid()
    ensures forall id :: id in old(patterns.rows) ==> id in patterns.rows
    ensures |patterns.rows| == |old(patterns.rows)| + detected
    ensures forall id :: id in patterns.rows && (id !in old(patterns.rows) || patterns.rows[id] != old(patterns.rows)[id]) ==>
      WrittenFor(txns, today, sqrt, householdId, patterns.rows[id])
    ensures var keys := KeysInOrder(txns, NormalizedKey);
      forall j :: 0 <= j < |keys| ==> GroupListed(patterns.rows, txns, today, sqrt, householdId, keys[j])
  {
    var keys, groups := GroupBy(txns, NormalizedKey);
    ghost var written := row => WrittenFor(txns, today, sqrt, householdId, row);
    detected, updated := 0, 0;
    var i := 0;
    while i < |keys|
      invariant 0 <= i <= |keys|
      invariant patterns.Valid()
      invariant forall id :: id in old(patterns.rows) ==> id in patterns.rows
      invariant |patterns.rows| == |old(patterns.rows)| + detected
      invariant forall id :: id in patterns.rows && (id !in old(patterns.rows) || patterns.rows[id] != old(patterns.rows)[id]) ==>
        written(patterns.rows[id])
      invariant forall j :: 0 <= j < i ==> GroupListed(patterns.rows, txns, today, sqrt, householdId, keys[j])
    {
      var k := keys[i];
      ghost var before := patterns.rows;
      var wrote, inserted := RecordGroup(patterns, txns, today, sqrt, householdId, k, groups[k]);
      ChangesCompose(old(patterns.rows), before, patterns.rows, written);
      ListedStep(before, patterns.rows, txns, today, sqrt, householdId, keys, i);
      if inserted {
        detected := detected + 1;
      } else if wrote {
        updated := updated + 1;
      }
      i := i + 1;
    }
  }

  /** `detectRecurringPatterns`: the transactions of the last year, grouped
      by normalised description, each passing group upserted as a pattern.
      `today` is `(year, month, day)` (month 0-based) and `order` is what the
      query returns. */
  method DetectRecurringPatterns(txTable: TransactionTable, patterns: PatternTable, householdId: string,
                                 year: int, month: int, day: int, order: seq<string>, sqrt: real -> real)
    returns (detected: nat, updated: nat)
    requires patterns.Valid()
    requires IsRecentQuery(txTable.rows, order, householdId, Cutoff(year, month, day))
    modifies patterns
    ensures patterns.Valid()
    ensures forall id :: id in old(patterns.rows) ==> id in patterns.rows
    ensures |patterns.rows| == |old(patterns.rows)| + detected
    ensures forall id :: id in patterns.rows && (id !in old(patterns.rows) || patterns.rows[id] != old(patterns.rows)[id]) ==>
      WrittenFor(Selected(txTable.rows, order), MakeDay(year, month, day), sqrt, householdId, patterns.rows[id])
    ensures var keys := KeysInOrder(Selected(txTable.rows, order), NormalizedKey);
      forall j :: 0 <= j < |keys| ==>
        GroupListed(patterns.rows, Selected(txTable.rows, order), MakeDay(year, month, day), sqrt, householdId, keys[j])
  {
    var today := MakeDay(year, month, day);
    var txns := Selected(txTable.rows, order);
    detected, updated := RecordGroups(patterns, txns, today, sqrt, householdId);
  }
}
