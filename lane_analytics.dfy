/**
  Lane history of the trip detail panel: the earlier trips that ran the same
  pickup-to-delivery lane, and the four statistics shown for them (average
  rate per mile, total loads, last load and frequency). Timestamps are
  milliseconds since the epoch; "now" is a parameter.
 */
module LaneAnalytics {
  import opened Wrappers
  import opened Seqs
  import opened Sorting
  import opened Trips

  /** The fixed distance the average quote is spread over. */
  const EstimatedMiles: real := 500.0
  const MsPerDay: int := 86400000

  /** The outcome of the lane history request; a failure carries nothing. */
  datatype Fetch = Fetched(trips: seq<Trip>) | FetchFailed

  /** The "Last Load" figure: N/A, Today, or a whole number of days ago. */
  datatype Recency = NotAvailable | Today | DaysAgo(days: int)

  /** The "Frequency" figure. */
  datatype Frequency = NotEnoughLoads | Daily | Weekly | BiWeekly | Monthly | Occasional

  /** Another trip that ran exactly the same lane: a different id, equal pickup and delivery text. */
  predicate SameLane(t: Trip, current: Trip) {
    t.id != current.id && t.pickupLocation == current.pickupLocation
    && t.deliveryLocation == current.deliveryLocation
  }

  /** The matching trips in the order they were fetched; a failed request leaves the list empty. */
  function LaneHistory(fetch: Fetch, current: Trip): seq<Trip> {
    match fetch
    case FetchFailed => []
    case Fetched(trips) => Filter(trips, (t: Trip) => SameLane(t, current))
  }

  /**
    The lane history keeps the fetched order and holds each fetched trip on the
    lane exactly as often as it was fetched, and no other trip.
   */
  lemma LaneHistoryExact(trips: seq<Trip>, current: Trip)
    ensures IsSubsequence(LaneHistory(Fetched(trips), current), trips)
    ensures forall t :: t in LaneHistory(Fetched(trips), current) <==> t in trips && SameLane(t, current)
    ensures forall t :: multiset(LaneHistory(Fetched(trips), current))[t]
                        == if SameLane(t, current) then multiset(trips)[t] else 0
  {
    FilterSpec(trips, (t: Trip) => SameLane(t, current));
  }

  /** The trip on display is never part of its own lane history. */
  lemma LaneHistoryExcludesCurrent(fetch: Fetch, current: Trip)
    ensures current !in LaneHistory(fetch, current)
  {
    if fetch.Fetched? {
      LaneHistoryExact(fetch.trips, current);
    }
  }

  /** Lanes match both ways: a trip on the current lane sees the current trip on its own lane. */
  lemma LaneHistorySymmetric(trips: seq<Trip>, a: Trip, b: Trip)
    requires a in trips && b in trips
    ensures a in LaneHistory(Fetched(trips), b) <==> b in LaneHistory(Fetched(trips), a)
  {
    LaneHistoryExact(trips, a);
    LaneHistoryExact(trips, b);
  }

  /**
    "Total Loads": the number of fetched trips on the lane. It is 0 exactly
    when the request failed or no fetched trip ran the lane, and it is the
    number fetched exactly when every fetched trip did.
   */
  function TotalLoads(fetch: Fetch, current: Trip): (n: nat)
    ensures fetch.FetchFailed? ==> n == 0
    ensures fetch.Fetched? ==> n <= |fetch.trips|
    ensures fetch.Fetched? ==> (n == 0 <==> forall t :: t in fetch.trips ==> !SameLane(t, current))
    ensures fetch.Fetched? ==> (n == |fetch.trips| <==> forall t :: t in fetch.trips ==> SameLane(t, current))
  {
    match fetch
    case FetchFailed => 0
    case Fetched(trips) =>
      FilterLength(trips, (t: Trip) => SameLane(t, current));
      |LaneHistory(fetch, current)|
  }

  /** The count over two fetched lists placed together is the sum of their counts. */
  lemma TotalLoadsAdditive(a: seq<Trip>, b: seq<Trip>, current: Trip)
    ensures TotalLoads(Fetched(a + b), current) == TotalLoads(Fetched(a), current) + TotalLoads(Fetched(b), current)
  {
    FilterConcat(a, b, (t: Trip) => SameLane(t, current));
  }

  /** A single fetched trip counts 1 when it ran the lane and 0 otherwise. */
  lemma TotalLoadsOfOne(t: Trip, current: Trip)
    ensures TotalLoads(Fetched([t]), current) == if SameLane(t, current) then 1 else 0
  {
    assert [t][1..] == [];
  }

  /** A trip counts toward the average rate when its quote is present and positive. */
  predicate HasPositiveQuote(t: Trip) {
    t.quoteAmount.Some? && t.quoteAmount.value > 0.0
  }

  /** The quotes added up from the first trip to the last, a missing quote counting 0. */
  function QuoteSum(trips: seq<Trip>): real {
    if trips == [] then 0.0
    else QuoteSum(trips[..|trips| - 1]) + trips[|trips| - 1].quoteAmount.GetOr(0.0)
  }

  /** The mean of the quotes of a non-empty list. */
  function MeanQuote(quoted: seq<Trip>): real
    requires quoted != []
  {
    QuoteSum(quoted) / (|quoted| as real)
  }

  /** "Avg Rate": the mean positive quote spread over the estimated miles, 0 when there is none. */
  function AverageRate(history: seq<Trip>): (r: real)
    ensures Filter(history, HasPositiveQuote) == [] ==> r == 0.0
  {
    var quoted := Filter(history, HasPositiveQuote);
    if |quoted| == 0 then 0.0
    else MeanQuote(quoted) / EstimatedMiles
  }

  lemma {:induction false} QuoteSumBounds(trips: seq<Trip>, lo: real, hi: real)
    requires forall i :: 0 <= i < |trips| ==>
               trips[i].quoteAmount.Some? && lo <= trips[i].quoteAmount.value <= hi
    ensures lo * (|trips| as real) <= QuoteSum(trips) <= hi * (|trips| as real)
  {
    if trips != [] {
      QuoteSumBounds(trips[..|trips| - 1], lo, hi);
    }
  }

  /**
    When every positive quote lies between `lo` and `hi`, the average rate lies
    between `lo` and `hi` spread over the estimated miles.
   */
  lemma AverageRateBounds(history: seq<Trip>, lo: real, hi: real)
    requires Filter(history, HasPositiveQuote) != []
    requires forall t :: t in history && HasPositiveQuote(t) ==> lo <= t.quoteAmount.value <= hi
    ensures lo / EstimatedMiles <= AverageRate(history) <= hi / EstimatedMiles
  {
    MeanQuoteBounds(history, lo, hi);
    PerMileBounds(history, lo, hi);
  }

  lemma MeanQuoteBounds(history: seq<Trip>, lo: real, hi: real)
    requires Filter(history, HasPositiveQuote) != []
    requires forall t :: t in history && HasPositiveQuote(t) ==> lo <= t.quoteAmount.value <= hi
    ensures lo <= MeanQuote(Filter(history, HasPositiveQuote)) <= hi
  {
    QuotedInRange(history, lo, hi);
    MeanQuoteWithin(Filter(history, HasPositiveQuote), lo, hi);
  }

  /** Quotes that all lie between `lo` and `hi` have their mean there too. */
  lemma MeanQuoteWithin(quoted: seq<Trip>, lo: real, hi: real)
    requires quoted != []
    requires forall i :: 0 <= i < |quoted| ==> quoted[i].quoteAmount.Some? && lo <= quoted[i].quoteAmount.value <= hi
    ensures lo <= MeanQuote(quoted) <= hi
  {
    QuoteSumBounds(quoted, lo, hi);
    MeanBounds(QuoteSum(quoted), |quoted| as real, lo, hi);
  }

  lemma PerMileBounds(history: seq<Trip>, lo: real, hi: real)
    requires Filter(history, HasPositiveQuote) != []
    requires lo <= MeanQuote(Filter(history, HasPositiveQuote)) <= hi
    ensures lo / EstimatedMiles <= AverageRate(history) <= hi / EstimatedMiles
  {
    var r := AverageRate(history);
    assert r == MeanQuote(Filter(history, HasPositiveQuote)) / EstimatedMiles;
  }

  lemma QuotedInRange(history: seq<Trip>, lo: real, hi: real)
    requires forall t :: t in history && HasPositiveQuote(t) ==> lo <= t.quoteAmount.value <= hi
    ensures forall i :: 0 <= i < |Filter(history, HasPositiveQuote)| ==>
              var t := Filter(history, HasPositiveQuote)[i];
              t.quoteAmount.Some? && lo <= t.quoteAmount.value <= hi
  {
    var quoted := Filter(history, HasPositiveQuote);
    FilterSpec(history, HasPositiveQuote);
    forall i | 0 <= i < |quoted|
      ensures quoted[i].quoteAmount.Some? && lo <= quoted[i].quoteAmount.value <= hi
    {
      assert quoted[i] in quoted;
    }
  }

  lemma MeanBounds(sum: real, n: real, lo: real, hi: real)
    requires n > 0.0 && lo * n <= sum <= hi * n
    ensures lo <= sum / n <= hi
  {
    assert (sum / n) * n == sum;
  }

  /** A trip without a positive quote added to the history does not move the average rate. */
  lemma AverageRateIgnoresUnquoted(history: seq<Trip>, t: Trip)
    requires !HasPositiveQuote(t)
    ensures AverageRate(history + [t]) == AverageRate(history)
  {
    FilterConcat(history, [t], HasPositiveQuote);
    FilterDropsAll([t], HasPositiveQuote);
    assert Filter(history, HasPositiveQuote) + [] == Filter(history, HasPositiveQuote);
  }

  /** Two quotes of 1000 and 1500 average 1250, that is 2.50 per mile. */
  lemma AverageRateExample(a: Trip, b: Trip)
    requires a.quoteAmount == Some(1000.0) && b.quoteAmount == Some(1500.0)
    ensures AverageRate([a, b]) == 2.5
  {
    FilterKeepsAll([a, b], HasPositiveQuote);
    assert [a, b][..1] == [a] && [a][..0] == [];
    assert QuoteSum([a]) == 1000.0;
    assert QuoteSum([a, b]) == 2500.0;
  }

  /**
    The index the "Last Load" reduce settles on: it starts from the first trip
    and moves only to a strictly later `updatedAt`, so it is the first trip
    with the latest update.
   */
  function LatestIndex(history: seq<Trip>): (i: nat)
    requires history != []
    ensures i < |history|
    ensures forall j :: 0 <= j < |history| ==> history[j].updatedAt <= history[i].updatedAt
    ensures forall j :: 0 <= j < i ==> history[j].updatedAt < history[i].updatedAt
  {
    if |history| == 1 then 0
    else
      var k := LatestIndex(history[..|history| - 1]);
      if history[|history| - 1].updatedAt > history[k].updatedAt then |history| - 1 else k
  }

  /** Whole days from `updatedAt` to `now`, rounded down (also for a timestamp in the future). */
  function DaysSince(now: int, updatedAt: int): int {
    (now - updatedAt) / MsPerDay
  }

  /** "Last Load": N/A for no history, Today when the latest update is less than a day old. */
  function LastLoad(history: seq<Trip>, now: int): (r: Recency)
    ensures history == [] <==> r == NotAvailable
    ensures history != [] ==>
              var elapsed := now - history[LatestIndex(history)].updatedAt;
              (r == Today <==> 0 <= elapsed < MsPerDay)
              && (r.DaysAgo? ==> r.days != 0 && r.days * MsPerDay <= elapsed < (r.days + 1) * MsPerDay)
  {
    if history == [] then NotAvailable
    else
      var days := DaysSince(now, history[LatestIndex(history)].updatedAt);
      if days == 0 then Today else DaysAgo(days)
  }

  /** The frequency thresholds on the mean number of days between loads. */
  function Bucket(avgDays: real): Frequency {
    if avgDays < 2.0 then Daily
    else if avgDays < 8.0 then Weekly
    else if avgDays < 20.0 then BiWeekly
    else if avgDays < 35.0 then Monthly
    else Occasional
  }

  function Rank(f: Frequency): nat {
    match f
    case NotEnoughLoads => 0
    case Daily => 1
    case Weekly => 2
    case BiWeekly => 3
    case Monthly => 4
    case Occasional => 5
  }

  /** Longer gaps never give a more frequent bucket. */
  lemma BucketMonotone(d1: real, d2: real)
    requires d1 <= d2
    ensures 1 <= Rank(Bucket(d1)) <= Rank(Bucket(d2))
  {
  }

  function EarliestCreated(trips: seq<Trip>): (m: int)
    requires trips != []
    ensures exists i :: 0 <= i < |trips| && trips[i].createdAt == m
    ensures forall i :: 0 <= i < |trips| ==> m <= trips[i].createdAt
  {
    if |trips| == 1 then trips[0].createdAt
    else
      var m := EarliestCreated(trips[1..]);
      assert forall i :: 1 <= i < |trips| ==> trips[i] == trips[1..][i - 1];
      if trips[0].createdAt <= m then trips[0].createdAt else m
  }

  function LatestCreated(trips: seq<Trip>): (m: int)
    requires trips != []
    ensures exists i :: 0 <= i < |trips| && trips[i].createdAt == m
    ensures forall i :: 0 <= i < |trips| ==> trips[i].createdAt <= m
  {
    if |trips| == 1 then trips[0].createdAt
    else
      var m := LatestCreated(trips[1..]);
      assert forall i :: 1 <= i < |trips| ==> trips[i] == trips[1..][i - 1];
      if trips[0].createdAt >= m then trips[0].createdAt else m
  }

  /** The mean gap in days between consecutive loads: the whole span over the number of gaps. */
  function MeanGapDays(trips: seq<Trip>): real
    requires |trips| >= 2
  {
    ((LatestCreated(trips) - EarliestCreated(trips)) as real / MsPerDay as real) / ((|trips| - 1) as real)
  }

  predicate CreatedLeq(a: Trip, b: Trip) {
    a.createdAt <= b.createdAt
  }

  lemma CreatedLeqIsTotalPreorder()
    ensures TotalPreorder(CreatedLeq)
  {
  }

  /** In a sorted copy the first and last creation times are the earliest and latest of the list. */
  lemma SortedCopyEnds(trips: seq<Trip>, sorted: seq<Trip>)
    requires trips != [] && multiset(sorted) == multiset(trips) && Sorted(sorted, CreatedLeq)
    ensures |sorted| == |trips|
    ensures sorted[0].createdAt == EarliestCreated(trips)
    ensures sorted[|sorted| - 1].createdAt == LatestCreated(trips)
  {
    assert |sorted| == |multiset(sorted)| == |trips|;
    SameSpan(trips, sorted);
    SameSpan(sorted, trips);
    SortedEnds(sorted);
    var n := |sorted|;
    EarliestBelow(sorted, sorted[0]);
    LatestAbove(sorted, sorted[n - 1]);
    var i :| 0 <= i < n && sorted[i].createdAt == EarliestCreated(sorted);
    var k :| 0 <= k < n && sorted[k].createdAt == LatestCreated(sorted);
  }

  /** A list sorted by creation time starts at its earliest and ends at its latest creation time. */
  lemma SortedEnds(sorted: seq<Trip>)
    requires sorted != [] && Sorted(sorted, CreatedLeq)
    ensures forall i :: 0 <= i < |sorted| ==> sorted[0].createdAt <= sorted[i].createdAt <= sorted[|sorted| - 1].createdAt
  {
    var n := |sorted|;
    forall i | 0 <= i < n
      ensures sorted[0].createdAt <= sorted[i].createdAt <= sorted[n - 1].createdAt
    {
      if 0 < i {
        assert CreatedLeq(sorted[0], sorted[i]);
      }
      if i < n - 1 {
        assert CreatedLeq(sorted[i], sorted[n - 1]);
      }
    }
  }

  /**
    "Frequency": with fewer than two loads N/A; otherwise the trips are sorted
    by creation time in a copy, the gaps between neighbours are added up in
    days, and their mean is bucketed. The gaps add up to the span from the
    earliest to the latest load, so the bucket depends on nothing else.
   */
  method FrequencyOf(history: seq<Trip>) returns (f: Frequency)
    ensures |history| < 2 ==> f == NotEnoughLoads
    ensures |history| >= 2 ==> f == Bucket(MeanGapDays(history))
  {
    if |history| < 2 {
      return NotEnoughLoads;
    }
    CreatedLeqIsTotalPreorder();
    var sorted := SortBy(history, CreatedLeq);
    var totalDays := 0.0;
    for i := 1 to |sorted|
      invariant totalDays == (sorted[i - 1].createdAt - sorted[0].createdAt) as real / MsPerDay as real
    {
      var days := (sorted[i].createdAt - sorted[i - 1].createdAt) as real / MsPerDay as real;
      totalDays := totalDays + days;
    }
    SortedCopyEnds(history, sorted);
    var avgDays := totalDays / ((|sorted| - 1) as real);
    f := Bucket(avgDays);
  }

  /** The bucket does not depend on the order the history arrives in. */
  lemma MeanGapDaysPermutation(a: seq<Trip>, b: seq<Trip>)
    requires |a| >= 2 && multiset(a) == multiset(b)
    ensures |b| == |a| && MeanGapDays(a) == MeanGapDays(b)
  {
    assert |b| == |multiset(b)| == |a|;
    SameSpan(a, b);
    SameSpan(b, a);
  }

  /** A reordering of the same trips has no earlier first and no later last creation time. */
  lemma SameSpan(a: seq<Trip>, b: seq<Trip>)
    requires a != [] && b != [] && multiset(a) == multiset(b)
    ensures EarliestCreated(b) <= EarliestCreated(a) && LatestCreated(a) <= LatestCreated(b)
  {
    var i :| 0 <= i < |a| && a[i].createdAt == EarliestCreated(a);
    var k :| 0 <= k < |a| && a[k].createdAt == LatestCreated(a);
    assert a[i] in multiset(a) && a[k] in multiset(a);
    EarliestBelow(b, a[i]);
    LatestAbove(b, a[k]);
  }

  /** No trip of the list was created before the earliest creation time. */
  lemma EarliestBelow(trips: seq<Trip>, t: Trip)
    requires t in trips
    ensures EarliestCreated(trips) <= t.createdAt
  {
    var j :| 0 <= j < |trips| && trips[j] == t;
  }

  /** No trip of the list was created after the latest creation time. */
  lemma LatestAbove(trips: seq<Trip>, t: Trip)
    requires t in trips
    ensures t.createdAt <= LatestCreated(trips)
  {
    var j :| 0 <= j < |trips| && trips[j] == t;
  }

  /** Loads created one day apart are "Daily"; one week apart, "Weekly". */
  lemma FrequencyExamples(a: Trip, b: Trip)
    requires b.createdAt == a.createdAt + MsPerDay
    ensures |[a, b]| >= 2 && Bucket(MeanGapDays([a, b])) == Daily
    ensures Bucket(MeanGapDays([a, b.(createdAt := a.createdAt + 7 * MsPerDay)])) == Weekly
  {
    var c := b.(createdAt := a.createdAt + 7 * MsPerDay);
    assert EarliestCreated([a, b]) == a.createdAt && LatestCreated([a, b]) == b.createdAt;
    assert EarliestCreated([a, c]) == a.createdAt && LatestCreated([a, c]) == c.createdAt;
  }
}
