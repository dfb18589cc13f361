/** The headline time windows: the trailing window of `dateRange` days, the
    window before it, and the period-over-period percentage change. */
module Windows {
  import opened JsCore
  import opened Seqs
  import opened Leads

  /** `now - new Date(l.createdAt).getTime() <= rangeMs`; NaN fails it. */
  predicate InCurrentWindow(l: Lead, now: int, range: int)
  {
    l.createdAt.Some? && now - l.createdAt.value <= range * DayMs
  }

  /** `time >= now - 2 * rangeMs && time <= now - rangeMs`. */
  predicate InPreviousWindow(l: Lead, now: int, range: int)
  {
    l.createdAt.Some? && now - range * DayMs * 2 <= l.createdAt.value <= now - range * DayMs
  }

  function CurrentWindow(now: int, range: int): Lead -> bool
  {
    l => InCurrentWindow(l, now, range)
  }

  function PreviousWindow(now: int, range: int): Lead -> bool
  {
    l => InPreviousWindow(l, now, range)
  }

  /** `getFilteredLeads()`: the leads created at or after `now - range` days,
      including those dated in the future, in list order. */
  function FilteredLeads(leads: seq<Lead>, now: int, range: int): (r: seq<Lead>)
    ensures |r| <= |leads|
    ensures forall l | l in r :: l in leads && l.createdAt.Some? && l.createdAt.value >= now - range * DayMs
    ensures forall i | 0 <= i < |leads| && leads[i].createdAt.Some? &&
              leads[i].createdAt.value >= now - range * DayMs :: leads[i] in r
  {
    Filter(leads, CurrentWindow(now, range))
  }

  /** `getPreviousLeads()`: the leads created in the closed interval
      `[now - 2 range, now - range]`, in list order. */
  function PreviousLeads(leads: seq<Lead>, now: int, range: int): (r: seq<Lead>)
    ensures |r| <= |leads|
    ensures forall l | l in r :: l in leads && l.createdAt.Some? &&
              now - 2 * range * DayMs <= l.createdAt.value <= now - range * DayMs
    ensures forall i | 0 <= i < |leads| && leads[i].createdAt.Some? &&
              now - 2 * range * DayMs <= leads[i].createdAt.value <= now - range * DayMs :: leads[i] in r
  {
    Filter(leads, PreviousWindow(now, range))
  }

  /** The two windows share exactly one instant, `now - range`, and only
      when the range is not negative; a lead created then is counted in both. */
  lemma WindowsMeetAtBoundary(l: Lead, now: int, range: int)
    ensures InCurrentWindow(l, now, range) && InPreviousWindow(l, now, range)
        <==> range >= 0 && l.createdAt == Some(now - range * DayMs)
  {
  }

  /** Together the windows leave no gap: every lead created at or after
      `now - 2 range` is in one of them. A lead with an unparsable creation
      date is in neither. */
  lemma WindowsCoverRecentLeads(l: Lead, now: int, range: int)
    requires range >= 0
    ensures (l.createdAt.Some? && l.createdAt.value >= now - 2 * range * DayMs)
        <==> InCurrentWindow(l, now, range) || InPreviousWindow(l, now, range)
    ensures l.createdAt.None? ==> !InCurrentWindow(l, now, range) && !InPreviousWindow(l, now, range)
  {
  }

  /** `calculateChange(current, previous)`: the percentage change, with
      100 for growth from nothing and 0 for nothing to nothing. */
  function CalculateChange(current: nat, previous: nat): (r: real)
    ensures previous == 0 && current > 0 ==> r == 100.0
    ensures previous == 0 && current == 0 ==> r == 0.0
    ensures previous > 0 ==> r * (previous as real) == ((current - previous) * 100) as real
    ensures r >= 0.0 <==> current >= previous
    ensures r == 0.0 <==> current == previous
  {
    if previous == 0 then (if current > 0 then 100.0 else 0.0)
    else ((current - previous) as real / previous as real) * 100.0
  }

  /** The class `updateChangeIndicator` gives a change value. */
  function ChangeClass(change: real): (c: string)
    ensures c == "positive" <==> change >= 0.0
    ensures c == "negative" <==> change < 0.0
  {
    if change >= 0.0 then "positive" else "negative"
  }

  /** The indicator shows "positive" exactly when the current window holds
      at least as many leads as the previous one. */
  lemma ChangeClassFollowsCounts(current: nat, previous: nat)
    ensures ChangeClass(CalculateChange(current, previous)) == "positive" <==> current >= previous
  {
  }
}
