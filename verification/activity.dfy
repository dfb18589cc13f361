/** `getActivityData`: the new/converted counts behind the activity chart,
    in daily, weekly or monthly buckets, oldest first. */
module Activity {
  import opened JsCore
  import opened Seqs
  import opened Leads

  /** One bar pair of the activity chart. */
  datatype Bucket = Bucket(caption: string, newCount: nat, converted: nat)

  datatype Period = Daily | Weekly | Monthly

  /** `activityPeriod` is compared with "daily" and "weekly"; any other
      value falls through to the monthly branch. */
  function PeriodOf(activityPeriod: string): (p: Period)
    ensures p == Daily <==> activityPeriod == "daily"
    ensures p == Weekly <==> activityPeriod == "weekly"
  {
    if activityPeriod == "daily" then Daily
    else if activityPeriod == "weekly" then Weekly
    else Monthly
  }

  const DayNames: seq<string> := ["Sun", "Mon", "Tue", "Wed", "Thu", "Fri", "Sat"]
  const MonthNames: seq<string> :=
    ["Jan", "Feb", "Mar", "Apr", "May", "Jun", "Jul", "Aug", "Sep", "Oct", "Nov", "Dec"]

  /** The number of buckets of a period. */
  function BucketCount(p: Period): nat
  {
    if p == Daily then 7 else 6
  }

  // Bucket `k` counts from the oldest (`k = 0`); the source's loop variable
  // is `i = BucketCount - 1 - k`.

  /** The instant whose calendar day daily bucket `k` covers. */
  function DailyInstant(now: int, k: int): int
  {
    now - (6 - k) * DayMs
  }

  /** `toDateString()` of each daily bucket's instant, oldest first. */
  function DayKeys(cal: Calendar, now: int): (keys: seq<string>)
    ensures |keys| == 7
  {
    seq(7, k => cal.dateString(DailyInstant(now, k)))
  }

  /** Start of weekly bucket `k`: `now - (7 i + 7)` days. */
  function WeekStart(now: int, k: int): int
  {
    now - (7 * (5 - k) + 7) * DayMs
  }

  /** End (exclusive) of weekly bucket `k`: `now - 7 i` days. */
  function WeekEnd(now: int, k: int): int
  {
    now - 7 * (5 - k) * DayMs
  }

  /** `(currentMonth - i + 12) % 12`; the dividend is positive, so the
      remainder agrees with JavaScript's `%`. */
  function MonthIndexOf(cal: Calendar, now: int, k: int): MonthIndex
    requires 0 <= k < 6
  {
    (cal.month(now) - (5 - k) + 12) % 12
  }

  function MonthKeys(cal: Calendar, now: int): (keys: seq<int>)
    ensures |keys| == 6
  {
    seq(6, k requires 0 <= k < 6 => MonthIndexOf(cal, now, k))
  }

  /** Which leads fall into bucket `k` of a period. */
  predicate InBucket(p: Period, cal: Calendar, now: int, k: int, l: Lead)
  {
    match p
    case Daily => CreatedOnDay(cal, l, cal.dateString(DailyInstant(now, k)))
    case Weekly => CreatedIn(l, WeekStart(now, k), WeekEnd(now, k))
    case Monthly => 0 <= k < 6 && CreatedInMonth(cal, l, MonthIndexOf(cal, now, k))
  }

  function BucketMembers(p: Period, cal: Calendar, now: int, k: int): Lead -> bool
  {
    l => InBucket(p, cal, now, k, l)
  }

  function BucketLabel(p: Period, cal: Calendar, now: int, k: int): string
  {
    match p
    case Daily => DayNames[cal.weekday(DailyInstant(now, k))]
    case Weekly => "W" + NatToString(if 47 + k >= 0 then 47 + k else 0)
    case Monthly => if 0 <= k < 6 then MonthNames[MonthIndexOf(cal, now, k)] else ""
  }

  /** One bucket: the leads of the period, and those among them that were
      won (`stage === "Closed Won" || stage === "Won"`). */
  function MakeBucket(leads: seq<Lead>, p: Period, cal: Calendar, now: int, k: int): (b: Bucket)
    ensures b.converted <= b.newCount
    ensures b.newCount == Count(leads, BucketMembers(p, cal, now, k))
    ensures p == Daily ==> b.caption == DayNames[cal.weekday(DailyInstant(now, k))]
    ensures p == Weekly && k >= -47 ==> b.caption == "W" + NatToString(47 + k)
    ensures p == Monthly && 0 <= k < 6 ==> b.caption == MonthNames[MonthIndexOf(cal, now, k)]
  {
    var periodLeads := Filter(leads, BucketMembers(p, cal, now, k));
    Bucket(BucketLabel(p, cal, now, k), |periodLeads|, |Filter(periodLeads, l => IsWon(l))|)
  }

  /** `getActivityData()` for the given `activityPeriod`. */
  function GetActivityData(leads: seq<Lead>, activityPeriod: string, now: int, cal: Calendar): (r: seq<Bucket>)
    ensures |r| == BucketCount(PeriodOf(activityPeriod))
    ensures activityPeriod == "daily" ==> |r| == 7
    ensures activityPeriod != "daily" ==> |r| == 6
    ensures forall k | 0 <= k < |r| :: r[k].converted <= r[k].newCount
    ensures forall k | 0 <= k < |r| ::
              r[k].newCount == Count(leads, BucketMembers(PeriodOf(activityPeriod), cal, now, k))
    ensures activityPeriod == "daily" ==>
              forall k | 0 <= k < 7 :: r[k].caption == DayNames[cal.weekday(DailyInstant(now, k))]
    // The weekly captions are the fixed "W47" to "W52", whatever the date.
    ensures activityPeriod == "weekly" ==>
              forall k | 0 <= k < 6 :: r[k].caption == "W" + NatToString(47 + k)
  {
    var p := PeriodOf(activityPeriod);
    seq(BucketCount(p), k => MakeBucket(leads, p, cal, now, k))
  }

  /** Converted counts are exactly the won leads of each bucket. */
  lemma ConvertedAreWonInBucket(leads: seq<Lead>, activityPeriod: string, now: int, cal: Calendar, k: nat)
    requires k < BucketCount(PeriodOf(activityPeriod))
    ensures GetActivityData(leads, activityPeriod, now, cal)[k].converted
         == Count(leads, l => InBucket(PeriodOf(activityPeriod), cal, now, k, l) && IsWon(l))
  {
    var p := PeriodOf(activityPeriod);
    FilterFilter(leads, BucketMembers(p, cal, now, k), l => IsWon(l),
                 l => InBucket(p, cal, now, k, l) && IsWon(l));
  }

  // ---------------------------------------------------------------------
  // Sums over buckets

  /** Leads created in `[lo, hi)`. */
  function CreatedBetween(lo: int, hi: int): Lead -> bool
  {
    l => CreatedIn(l, lo, hi)
  }

  /** Leads whose creation day is one of `days`. */
  function CreatedOnOneOf(cal: Calendar, days: seq<string>): Lead -> bool
  {
    (l: Lead) => l.createdAt.Some? && cal.dateString(l.createdAt.value) in days
  }

  /** Leads whose creation month index is one of `months`. */
  function CreatedInOneOf(cal: Calendar, months: seq<int>): Lead -> bool
  {
    (l: Lead) => l.createdAt.Some? && cal.month(l.createdAt.value) in months
  }

  /** The total of the "new" series. */
  function SumNew(bs: seq<Bucket>): nat
  {
    if bs == [] then 0 else SumNew(bs[..|bs| - 1]) + bs[|bs| - 1].newCount
  }

  /** The weekly windows are half-open and contiguous, so the weekly new
      counts add up to the leads created in `[now - 42 days, now)`. */
  lemma WeeklyTotal(leads: seq<Lead>, now: int, cal: Calendar)
    ensures SumNew(GetActivityData(leads, "weekly", now, cal))
         == Count(leads, CreatedBetween(now - 42 * DayMs, now))
  {
    var r := GetActivityData(leads, "weekly", now, cal);
    WeeklyPrefix(leads, now, cal, 6);
    TakeAll(r);
    assert WeekEnd(now, 5) == now;
  }

  lemma TakeAll<T>(s: seq<T>)
    ensures s[..|s|] == s
  {
  }

  lemma {:induction false} WeeklyPrefix(leads: seq<Lead>, now: int, cal: Calendar, j: nat)
    requires j <= 6
    ensures SumNew(GetActivityData(leads, "weekly", now, cal)[..j])
         == Count(leads, CreatedBetween(now - 42 * DayMs, WeekEnd(now, j - 1)))
  {
    var r := GetActivityData(leads, "weekly", now, cal);
    var lo := now - 42 * DayMs;
    if j == 0 {
      assert r[..0] == [];
      CountNone(leads, CreatedBetween(lo, WeekEnd(now, -1)));
    } else {
      WeeklyPrefix(leads, now, cal, j - 1);
      SumNewSnoc(r, j);
      WeekSplit(leads, now, cal, j);
    }
  }

  /** Weekly bucket `j - 1` starts where bucket `j - 2` ends, so it extends
      the window of the earlier buckets by its own leads. */
  lemma WeekSplit(leads: seq<Lead>, now: int, cal: Calendar, j: nat)
    requires 0 < j <= 6
    ensures Count(leads, CreatedBetween(now - 42 * DayMs, WeekEnd(now, j - 1)))
         == Count(leads, CreatedBetween(now - 42 * DayMs, WeekEnd(now, j - 2)))
          + Count(leads, BucketMembers(Weekly, cal, now, j - 1))
  {
    assert WeekStart(now, j - 1) == WeekEnd(now, j - 2);
    CountSplit(leads,
               CreatedBetween(now - 42 * DayMs, WeekEnd(now, j - 1)),
               CreatedBetween(now - 42 * DayMs, WeekEnd(now, j - 2)),
               BucketMembers(Weekly, cal, now, j - 1));
  }

  /** When the seven daily buckets fall on seven different calendar days,
      the daily new counts add up to the leads created on any of those
      days. (Around a daylight-saving change two 24-hour steps can land on
      the same calendar day, and then that day is counted twice.) */
  lemma DailyTotal(leads: seq<Lead>, now: int, cal: Calendar)
    requires forall i, j | 0 <= i < j < 7 :: DayKeys(cal, now)[i] != DayKeys(cal, now)[j]
    ensures SumNew(GetActivityData(leads, "daily", now, cal))
         == Count(leads, CreatedOnOneOf(cal, DayKeys(cal, now)))
  {
    var r := GetActivityData(leads, "daily", now, cal);
    DailyPrefix(leads, now, cal, 7);
    TakeAll(r);
    TakeAll(DayKeys(cal, now));
  }

  lemma {:induction false} DailyPrefix(leads: seq<Lead>, now: int, cal: Calendar, j: nat)
    requires j <= 7
    requires forall i, i' | 0 <= i < i' < 7 :: DayKeys(cal, now)[i] != DayKeys(cal, now)[i']
    ensures SumNew(GetActivityData(leads, "daily", now, cal)[..j])
         == Count(leads, CreatedOnOneOf(cal, DayKeys(cal, now)[..j]))
  {
    var r := GetActivityData(leads, "daily", now, cal);
    var keys := DayKeys(cal, now);
    if j == 0 {
      assert r[..0] == [];
      CountNone(leads, CreatedOnOneOf(cal, keys[..0]));
    } else {
      DailyPrefix(leads, now, cal, j - 1);
      SumNewSnoc(r, j);
      DaySplit(leads, now, cal, j);
    }
  }

  /** Adding the day of bucket `j - 1` to the first `j - 1` days adds that
      bucket's leads. */
  lemma DaySplit(leads: seq<Lead>, now: int, cal: Calendar, j: nat)
    requires 0 < j <= 7
    requires forall i, i' | 0 <= i < i' < 7 :: DayKeys(cal, now)[i] != DayKeys(cal, now)[i']
    ensures Count(leads, CreatedOnOneOf(cal, DayKeys(cal, now)[..j]))
         == Count(leads, CreatedOnOneOf(cal, DayKeys(cal, now)[..j - 1]))
          + Count(leads, BucketMembers(Daily, cal, now, j - 1))
  {
    var keys := DayKeys(cal, now);
    assert keys[..j] == keys[..j - 1] + [keys[j - 1]];
    assert keys[j - 1] !in keys[..j - 1];
    CountSplit(leads,
               CreatedOnOneOf(cal, keys[..j]),
               CreatedOnOneOf(cal, keys[..j - 1]),
               BucketMembers(Daily, cal, now, j - 1));
  }

  /** The sum of a prefix grows by the last bucket's count. */
  lemma SumNewSnoc(bs: seq<Bucket>, j: nat)
    requires 0 < j <= |bs|
    ensures SumNew(bs[..j]) == SumNew(bs[..j - 1]) + bs[j - 1].newCount
  {
    assert bs[..j][..j - 1] == bs[..j - 1];
  }

  /** Month index of bucket `k` without the remainder. */
  lemma MonthIndexValue(cal: Calendar, now: int, k: int)
    requires 0 <= k < 6
    ensures var c := cal.month(now);
            MonthIndexOf(cal, now, k) == if c + 7 + k < 12 then c + 7 + k else c + k - 5
  {
    var x := cal.month(now) - (5 - k) + 12;
    assert 7 <= x < 24;
    if x >= 12 {
      assert x == 12 * 1 + (x - 12);
    }
  }

  /** The six month indices are consecutive modulo 12, end with the current
      month and are pairwise different. */
  lemma MonthKeysConsecutive(cal: Calendar, now: int)
    ensures MonthKeys(cal, now)[5] == cal.month(now)
    ensures forall k | 0 <= k < 5 :: MonthKeys(cal, now)[k + 1] == (MonthKeys(cal, now)[k] + 1) % 12
    ensures forall i, j | 0 <= i < j < 6 :: MonthKeys(cal, now)[i] != MonthKeys(cal, now)[j]
  {
    var keys := MonthKeys(cal, now);
    forall k | 0 <= k < 6 ensures keys[k] == MonthIndexOf(cal, now, k) {
      MonthIndexValue(cal, now, k);
    }
    forall k | 0 <= k < 6 ensures var c := cal.month(now); keys[k] == if c + 7 + k < 12 then c + 7 + k else c + k - 5 {
      MonthIndexValue(cal, now, k);
    }
  }

  /** The six monthly buckets are six consecutive month indices ending with
      the current month, each in `[0, 12)` and labelled by its month name. */
  lemma MonthlyIndices(leads: seq<Lead>, activityPeriod: string, now: int, cal: Calendar)
    requires activityPeriod != "daily" && activityPeriod != "weekly"
    ensures var r := GetActivityData(leads, activityPeriod, now, cal);
            && MonthKeys(cal, now)[5] == cal.month(now)
            && (forall k | 0 <= k < 5 :: MonthKeys(cal, now)[k + 1] == (MonthKeys(cal, now)[k] + 1) % 12)
            && (forall k | 0 <= k < 6 :: 0 <= MonthKeys(cal, now)[k] < 12
                                      && r[k].caption == MonthNames[MonthKeys(cal, now)[k]])
    ensures forall i, j | 0 <= i < j < 6 :: MonthKeys(cal, now)[i] != MonthKeys(cal, now)[j]
  {
    MonthKeysConsecutive(cal, now);
  }

  /** Since the six month indices differ, the monthly new counts add up to
      the leads created in any of those month indices, of any year. */
  lemma MonthlyTotal(leads: seq<Lead>, activityPeriod: string, now: int, cal: Calendar)
    requires activityPeriod != "daily" && activityPeriod != "weekly"
    ensures SumNew(GetActivityData(leads, activityPeriod, now, cal))
         == Count(leads, CreatedInOneOf(cal, MonthKeys(cal, now)))
  {
    var r := GetActivityData(leads, activityPeriod, now, cal);
    MonthlyIndices(leads, activityPeriod, now, cal);
    MonthlyPrefix(leads, activityPeriod, now, cal, 6);
    TakeAll(r);
    TakeAll(MonthKeys(cal, now));
  }

  lemma {:induction false} MonthlyPrefix(leads: seq<Lead>, activityPeriod: string, now: int, cal: Calendar, j: nat)
    requires activityPeriod != "daily" && activityPeriod != "weekly"
    requires j <= 6
    requires forall i, i' | 0 <= i < i' < 6 :: MonthKeys(cal, now)[i] != MonthKeys(cal, now)[i']
    ensures SumNew(GetActivityData(leads, activityPeriod, now, cal)[..j])
         == Count(leads, CreatedInOneOf(cal, MonthKeys(cal, now)[..j]))
  {
    var r := GetActivityData(leads, activityPeriod, now, cal);
    var keys := MonthKeys(cal, now);
    if j == 0 {
      assert r[..0] == [];
      CountNone(leads, CreatedInOneOf(cal, keys[..0]));
    } else {
      MonthlyPrefix(leads, activityPeriod, now, cal, j - 1);
      SumNewSnoc(r, j);
      MonthSplit(leads, now, cal, j);
    }
  }

  /** Adding the month of bucket `j - 1` to the first `j - 1` months adds
      that bucket's leads. */
  lemma MonthSplit(leads: seq<Lead>, now: int, cal: Calendar, j: nat)
    requires 0 < j <= 6
    requires forall i, i' | 0 <= i < i' < 6 :: MonthKeys(cal, now)[i] != MonthKeys(cal, now)[i']
    ensures Count(leads, CreatedInOneOf(cal, MonthKeys(cal, now)[..j]))
         == Count(leads, CreatedInOneOf(cal, MonthKeys(cal, now)[..j - 1]))
          + Count(leads, BucketMembers(Monthly, cal, now, j - 1))
  {
    var keys := MonthKeys(cal, now);
    assert keys[..j] == keys[..j - 1] + [keys[j - 1]];
    assert keys[j - 1] !in keys[..j - 1];
    CountSplit(leads,
               CreatedInOneOf(cal, keys[..j]),
               CreatedInOneOf(cal, keys[..j - 1]),
               BucketMembers(Monthly, cal, now, j - 1));
  }
}
