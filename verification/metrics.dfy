/** The headline numbers of `updateMetrics`, without the DOM writes. */
module Metrics {
  import opened JsCore
  import opened Seqs
  import opened Leads
  import opened Windows

  /** The values `updateMetrics` writes into the metric cards. The three
      `...Change` indicators other than `leadsChange` are fixed numbers. */
  datatype Metrics = Metrics(
    totalLeads: nat,
    leadsChange: real,
    newLeadsToday: nat,
    activeListings: nat,
    propertiesChange: real,
    closedDeals: nat,
    thisMonthDeals: nat,
    dealsChange: real,
    scheduledViewings: nat,
    todayViewings: nat,
    viewingsChange: real)

  /** `l.stage || ""`. */
  function StageOrEmpty(l: Lead): string
  {
    FirstTruthy([l.stage], "")
  }

  /** For a non-empty stage name, `(l.stage || "") === s` is `l.stage === s`. */
  lemma StageOrEmptyMatches(l: Lead, s: string)
    requires s != ""
    ensures StageOrEmpty(l) == s <==> HasStage(l, s)
  {
  }

  predicate IsActive(l: Lead)
  {
    var stage := StageOrEmpty(l);
    stage != "Closed Won" && stage != "Won" && stage != "Closed Lost"
  }

  predicate IsClosed(l: Lead)
  {
    var stage := StageOrEmpty(l);
    stage == "Closed Won" || stage == "Won"
  }

  predicate IsClosedLost(l: Lead)
  {
    HasStage(l, "Closed Lost")
  }

  function Active(): Lead -> bool { l => IsActive(l) }
  function Closed(): Lead -> bool { l => IsClosed(l) }
  function ClosedLost(): Lead -> bool { l => IsClosedLost(l) }
  function Assigned(): Lead -> bool { l => IsAssigned(l) }

  /** Created on today's calendar day. */
  function CreatedToday(cal: Calendar, now: int): Lead -> bool
  {
    l => CreatedOnDay(cal, l, cal.dateString(now))
  }

  /** Created today and assigned to a caller. */
  function AssignedToday(cal: Calendar, now: int): Lead -> bool
  {
    l => CreatedOnDay(cal, l, cal.dateString(now)) && IsAssigned(l)
  }

  /** A won deal created in the current month index, of whatever year. */
  function WonThisMonth(cal: Calendar, now: int): Lead -> bool
  {
    l => CreatedInMonth(cal, l, cal.month(now)) && IsClosed(l)
  }

  /** `updateMetrics()` over the lead list, the `dateRange` in days, one
      reading of the clock and the local calendar. */
  function UpdateMetrics(leads: seq<Lead>, now: int, range: int, cal: Calendar): (m: Metrics)
    ensures m.totalLeads == |FilteredLeads(leads, now, range)|
    ensures m.leadsChange == CalculateChange(m.totalLeads, |PreviousLeads(leads, now, range)|)
    ensures m.leadsChange >= 0.0 <==> m.totalLeads >= |PreviousLeads(leads, now, range)|
    ensures m.newLeadsToday == Count(leads, CreatedToday(cal, now))
    ensures m.scheduledViewings == Count(FilteredLeads(leads, now, range), Assigned())
    ensures m.todayViewings == Count(leads, AssignedToday(cal, now))
    ensures m.activeListings + m.closedDeals + Count(FilteredLeads(leads, now, range), ClosedLost())
            == m.totalLeads
    ensures m.closedDeals == Count(FilteredLeads(leads, now, range), l => IsWon(l))
    ensures m.scheduledViewings <= m.totalLeads
    ensures m.todayViewings <= m.newLeadsToday <= |leads|
    ensures m.thisMonthDeals == Count(leads, l => IsWon(l) && CreatedInMonth(cal, l, cal.month(now)))
    ensures m.propertiesChange == 8.0 && m.dealsChange == 15.0 && m.viewingsChange == 22.0
  {
    var current := FilteredLeads(leads, now, range);
    var previous := PreviousLeads(leads, now, range);
    var m := Metrics(
      totalLeads := |current|,
      leadsChange := CalculateChange(|current|, |previous|),
      newLeadsToday := Count(leads, CreatedToday(cal, now)),
      activeListings := Count(current, Active()),
      propertiesChange := 8.0,
      closedDeals := Count(current, Closed()),
      thisMonthDeals := Count(leads, WonThisMonth(cal, now)),
      dealsChange := 15.0,
      scheduledViewings := Count(current, Assigned()),
      todayViewings := Count(leads, AssignedToday(cal, now)),
      viewingsChange := 22.0);
    PartitionByOutcome(current);
    CountMonotone(leads, AssignedToday(cal, now), CreatedToday(cal, now));
    ClosedIsWon(current);
    WonThisMonthIsWon(leads, cal, now);
    m
  }

  /** Every lead in a list is active, closed, or closed-lost, and only one. */
  lemma PartitionByOutcome(s: seq<Lead>)
    ensures Count(s, Active()) + Count(s, Closed()) + Count(s, ClosedLost()) == |s|
  {
    var notActive := l => IsClosed(l) || IsClosedLost(l);
    forall l: Lead ensures IsClosedLost(l) <==> StageOrEmpty(l) == "Closed Lost" {
      StageOrEmptyMatches(l, "Closed Lost");
    }
    CountSplit(s, l => true, Active(), notActive);
    CountSplit(s, notActive, Closed(), ClosedLost());
    CountAll(s);
  }

  lemma {:induction false} CountAll(s: seq<Lead>)
    ensures Count(s, l => true) == |s|
  {
    if s != [] {
      CountAll(s[1..]);
    }
  }

  lemma ClosedIsWon(s: seq<Lead>)
    ensures Count(s, Closed()) == Count(s, l => IsWon(l))
  {
    forall l | l in s ensures IsClosed(l) == IsWon(l) {
      StageOrEmptyMatches(l, "Closed Won");
      StageOrEmptyMatches(l, "Won");
    }
    FilterExt(s, Closed(), l => IsWon(l));
  }

  lemma WonThisMonthIsWon(s: seq<Lead>, cal: Calendar, now: int)
    ensures Count(s, WonThisMonth(cal, now))
         == Count(s, l => IsWon(l) && CreatedInMonth(cal, l, cal.month(now)))
  {
    forall l | l in s ensures WonThisMonth(cal, now)(l)
                          == (IsWon(l) && CreatedInMonth(cal, l, cal.month(now))) {
      StageOrEmptyMatches(l, "Closed Won");
      StageOrEmptyMatches(l, "Won");
    }
    FilterExt(s, WonThisMonth(cal, now), l => IsWon(l) && CreatedInMonth(cal, l, cal.month(now)));
  }

  /** `thisMonthDeals` compares the month index only: a won lead created in
      the current month index is counted however many years ago it was
      created, and whether or not it lies in the date window. */
  lemma ThisMonthDealsIgnoresYear(leads: seq<Lead>, l: Lead, now: int, range: int, cal: Calendar)
    requires IsWon(l) && l.createdAt.Some?
    requires cal.month(l.createdAt.value) == cal.month(now)
    ensures UpdateMetrics(leads + [l], now, range, cal).thisMonthDeals
         == UpdateMetrics(leads, now, range, cal).thisMonthDeals + 1
  {
    FilterSnoc(leads, l, l => IsWon(l) && CreatedInMonth(cal, l, cal.month(now)));
  }

  /** A lead created today and one created 40 days ago that was won: with a
      30-day window only the first is in the total, and no deal is closed. */
  lemma ThirtyDayScenario(recent: Lead, aged: Lead, now: int, cal: Calendar)
    requires recent.createdAt == Some(now) && recent.stage == Some("New Lead")
    requires aged.createdAt == Some(now - 40 * DayMs) && aged.stage == Some("Closed Won")
    ensures UpdateMetrics([recent, aged], now, 30, cal).totalLeads == 1
    ensures UpdateMetrics([recent, aged], now, 30, cal).closedDeals == 0
    ensures UpdateMetrics([recent, aged], now, 30, cal).activeListings == 1
  {
    var leads := [recent, aged];
    assert FilteredLeads(leads, now, 30) == [recent] by {
      assert leads[1..] == [aged];
      assert Filter(leads, CurrentWindow(now, 30)) == [recent] + Filter([aged], CurrentWindow(now, 30));
    }
  }
}
