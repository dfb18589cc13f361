/** The three rankings: lead sources by number of leads
    (`renderPropertyTypes`), agents by closed deals (`renderTopAgents`) and
    sources by conversion rate (`renderSourcesPerformance`). Each groups the
    cached leads by a key, sorts the entries by a score, highest first and
    stably, and keeps the first five. */
module Rankings {
  import opened JsCore
  import opened Seqs
  import opened Leads
  import opened Grouping

  /** How many entries each ranking shows. */
  const Shown: nat := 5

  /** `lead.source || "Unknown"`. */
  function SourceKey(): Lead -> string
  {
    (l: Lead) => FirstTruthy([l.source], "Unknown")
  }

  /** `lead.assignedCallerName || "Unassigned"`. */
  function AgentKey(): Lead -> string
  {
    (l: Lead) => FirstTruthy([l.assignedCallerName], "Unassigned")
  }

  function NoTest(): Lead -> bool
  {
    l => false
  }

  function Won(): Lead -> bool
  {
    l => IsWon(l)
  }

  function ByTotal(): Tally -> real
  {
    (t: Tally) => t.total as real
  }

  function ByHits(): Tally -> real
  {
    (t: Tally) => t.hits as real
  }

  /** `count / max * 100`, the share of `max` that `count` is, in percent. */
  function Percent(count: nat, max: nat): (p: real)
    requires max > 0
    ensures count <= max ==> 0.0 <= p <= 100.0
    ensures count <= max ==> (p == 100.0 <==> count == max)
    ensures p == 0.0 <==> count == 0
    ensures p * max as real == count as real * 100.0
  {
    var f := count as real / max as real;
    Fraction(count as real, max as real);
    f * 100.0
  }

  /** `total > 0 ? hits / total * 100 : 0`, the conversion rate of a group. */
  function Conversion(hits: nat, total: nat): (c: real)
    ensures hits <= total ==> 0.0 <= c <= 100.0
    ensures total > 0 ==> (c == 0.0 <==> hits == 0)
    ensures hits <= total ==> (c == 100.0 <==> total > 0 && hits == total)
    ensures total > 0 ==> c * total as real == hits as real * 100.0
    ensures total == 0 ==> c == 0.0
  {
    if total > 0 then Percent(hits, total) else 0.0
  }

  /** A share `c / m` of a positive `m` is zero only for `c = 0`; it lies in
      `[0, 1]` when `c` does in `[0, m]`, and is one only for `c = m`. */
  lemma Fraction(c: real, m: real)
    requires 0.0 <= c && m > 0.0
    ensures c / m == 0.0 <==> c == 0.0
    ensures c <= m ==> 0.0 <= c / m <= 1.0 && (c / m == 1.0 <==> c == m)
    ensures (c / m) * 100.0 * m == c * 100.0
  {
    var f := c / m;
    assert f * m == c;
  }

  /** Every entry of a grouping, and so every entry kept by a ranking of it,
      holds the counts of its key; it counts at least one lead and no more
      hits than leads. */
  lemma RankedEntries(leads: seq<Lead>, key: Lead -> string, hit: Lead -> bool, score: Tally -> real, t: Tally)
    requires t in Top(GroupBy(leads, key, hit), score, Shown)
    ensures t in GroupBy(leads, key, hit)
    ensures EntryMatches(leads, key, hit, t)
    ensures 1 <= t.total && t.hits <= t.total
  {
    var all := GroupBy(leads, key, hit);
    assert t in multiset(Top(all, score, Shown));
    GroupByCounts(leads, key, hit);
    EntryBounds(leads, key, hit, t);
  }

  // ---------------------------------------------------------------------
  // Sources by number of leads

  /** One row of the lead-source list: the bar is `percentage` wide. */
  datatype SourceShare = SourceShare(source: string, count: nat, percentage: real)

  /** The five sources with the most leads. */
  function TopSources(leads: seq<Lead>): seq<Tally>
  {
    Top(GroupBy(leads, SourceKey(), NoTest()), ByTotal(), Shown)
  }

  /** `renderPropertyTypes()`: each bar is the source's count as a share of
      the first (largest) count, `sortedSources[0]?.[1] || 1`. */
  function PropertyTypes(leads: seq<Lead>): (rows: seq<SourceShare>)
    ensures |rows| == |TopSources(leads)| <= Shown
    ensures forall i | 0 <= i < |rows| ::
              && rows[i].source == TopSources(leads)[i].key
              && rows[i].count == TopSources(leads)[i].total
              && 0.0 <= rows[i].percentage <= 100.0
    ensures forall i, j | 0 <= i < j < |rows| :: rows[i].count >= rows[j].count
    ensures rows != [] && rows[0].count > 0 ==> rows[0].percentage == 100.0
  {
    var top := TopSources(leads);
    TotalsDescend(top);
    var maxCount := if top == [] || top[0].total == 0 then 1 else top[0].total;
    Shares(top, maxCount)
  }

  /** A ranking by lead count lists counts in non-increasing order, so the
      first is the largest. */
  lemma TotalsDescend(top: seq<Tally>)
    requires SortedDesc(top, ByTotal())
    ensures forall i, j | 0 <= i < j < |top| :: top[i].total >= top[j].total
    ensures forall i | 0 <= i < |top| :: top[i].total <= top[0].total
  {
    assert forall i, j | 0 <= i < j < |top| :: ByTotal()(top[i]) >= ByTotal()(top[j]);
  }

  /** Each listed source's count is its number of leads, at least one, so
      the first bar, the most frequent source's, is always full. */
  lemma PropertyTypesCounts(leads: seq<Lead>)
    ensures var rows := PropertyTypes(leads);
            && (forall i | 0 <= i < |rows| :: rows[i].count == Count(leads, KeyIs(SourceKey(), rows[i].source)) >= 1)
            && (rows != [] ==> rows[0].percentage == 100.0)
  {
    var rows := PropertyTypes(leads);
    var top := TopSources(leads);
    forall i | 0 <= i < |rows|
      ensures rows[i].count == Count(leads, KeyIs(SourceKey(), rows[i].source)) >= 1
    {
      assert top[i] in top;
      RankedEntries(leads, SourceKey(), NoTest(), ByTotal(), top[i]);
    }
  }

  /** Each entry as a share of `maxCount`. */
  function Shares(top: seq<Tally>, maxCount: nat): (rows: seq<SourceShare>)
    requires maxCount > 0 && forall i | 0 <= i < |top| :: top[i].total <= maxCount
    ensures |rows| == |top|
    ensures forall i | 0 <= i < |rows| ::
              && rows[i].source == top[i].key && rows[i].count == top[i].total
              && 0.0 <= rows[i].percentage <= 100.0
              && rows[i].percentage * maxCount as real == top[i].total as real * 100.0
              && (rows[i].percentage == 100.0 <==> top[i].total == maxCount)
  {
    seq(|top|, i requires 0 <= i < |top| =>
      SourceShare(top[i].key, top[i].total, Percent(top[i].total, maxCount)))
  }

  // ---------------------------------------------------------------------
  // Agents by closed deals

  /** One row of the top-agents list; `conversion` is the progress bar. */
  datatype AgentRow = AgentRow(name: string, total: nat, closed: nat, conversion: real)

  function TopAgentEntries(leads: seq<Lead>): seq<Tally>
  {
    Top(GroupBy(leads, AgentKey(), Won()), ByHits(), Shown)
  }

  /** `renderTopAgents()`: the five agents with the most closed deals, each
      with its number of leads and its conversion rate. */
  function TopAgents(leads: seq<Lead>): (rows: seq<AgentRow>)
    ensures |rows| == |TopAgentEntries(leads)| <= Shown
    ensures forall i | 0 <= i < |rows| ::
              && rows[i].name == TopAgentEntries(leads)[i].key
              && rows[i].total == TopAgentEntries(leads)[i].total
              && rows[i].closed == TopAgentEntries(leads)[i].hits
              && rows[i].conversion == Conversion(rows[i].closed, rows[i].total)
    ensures forall i, j | 0 <= i < j < |rows| :: rows[i].closed >= rows[j].closed
  {
    var top := TopAgentEntries(leads);
    HitsDescend(top);
    AgentRows(top)
  }

  lemma HitsDescend(top: seq<Tally>)
    requires SortedDesc(top, ByHits())
    ensures forall i, j | 0 <= i < j < |top| :: top[i].hits >= top[j].hits
  {
    assert forall i, j | 0 <= i < j < |top| :: ByHits()(top[i]) >= ByHits()(top[j]);
  }

  /** Each agent's entry with its conversion percentage: the share of its
      leads it closed, full exactly when it closed every one. */
  function AgentRows(top: seq<Tally>): (rows: seq<AgentRow>)
    ensures |rows| == |top|
    ensures forall i | 0 <= i < |rows| ::
              && rows[i].name == top[i].key && rows[i].total == top[i].total
              && rows[i].closed == top[i].hits
              && rows[i].conversion == Conversion(top[i].hits, top[i].total)
    ensures forall i | 0 <= i < |rows| && top[i].hits <= top[i].total ::
              && 0.0 <= rows[i].conversion <= 100.0
              && (rows[i].conversion == 100.0 <==> 0 < top[i].hits == top[i].total)
              && (rows[i].conversion == 0.0 <==> top[i].hits == 0)
    ensures forall i | 0 <= i < |rows| && top[i].total > 0 ::
              rows[i].conversion * top[i].total as real == top[i].hits as real * 100.0
  {
    seq(|top|, i requires 0 <= i < |top| =>
      AgentRow(top[i].key, top[i].total, top[i].hits, Conversion(top[i].hits, top[i].total)))
  }

  /** Each listed agent's figures are its own: `total` leads are assigned to
      it, at least one, `closed` of them won, and the conversion bar is
      within 0 to 100 percent. */
  lemma TopAgentsCounts(leads: seq<Lead>)
    ensures var rows := TopAgents(leads);
            forall i | 0 <= i < |rows| ::
              && rows[i].total == Count(leads, KeyIs(AgentKey(), rows[i].name)) >= 1
              && rows[i].closed == Count(leads, KeyAndHit(AgentKey(), Won(), rows[i].name))
              && rows[i].closed <= rows[i].total
              && 0.0 <= rows[i].conversion <= 100.0
  {
    var rows := TopAgents(leads);
    var top := TopAgentEntries(leads);
    forall i | 0 <= i < |rows|
      ensures && rows[i].total == Count(leads, KeyIs(AgentKey(), rows[i].name)) >= 1
              && rows[i].closed == Count(leads, KeyAndHit(AgentKey(), Won(), rows[i].name))
              && rows[i].closed <= rows[i].total
    {
      assert top[i] in top;
      RankedEntries(leads, AgentKey(), Won(), ByHits(), top[i]);
    }
  }

  // ---------------------------------------------------------------------
  // Sources by conversion rate

  /** `rateClass`: below 20 percent is "poor", below 40 "average", and
      anything else "good". */
  function RateClass(rate: real): (c: string)
    ensures c == "poor" <==> rate < 20.0
    ensures c == "average" <==> 20.0 <= rate < 40.0
    ensures c == "good" <==> 40.0 <= rate
  {
    if rate < 20.0 then "poor"
    else if rate < 40.0 then "average"
    else "good"
  }

  /** A row of `dashboardAnalytics.sourcePerformance` as the server sends it. */
  datatype ServerRow = ServerRow(source: string, conversionRate: real, totalLeads: int, converted: int)

  /** One row of the sources-performance list. */
  datatype PerformanceRow = PerformanceRow(name: string, rate: real, total: int, converted: int, rateClass: string)

  /** A source's local figures before sorting. */
  datatype Rated = Rated(name: string, total: nat, converted: nat, rate: real)

  function ByRate(): Rated -> real
  {
    (r: Rated) => r.rate
  }

  /** `rate: total > 0 ? converted / total * 100 : 0`: the share of the
      source's leads that converted, in percent. */
  function RateOf(t: Tally): (r: Rated)
    ensures r.name == t.key && r.total == t.total && r.converted == t.hits
    ensures r.rate == Conversion(t.hits, t.total)
    ensures t.total > 0 ==> r.rate * t.total as real == t.hits as real * 100.0
    ensures t.total == 0 ==> r.rate == 0.0
    ensures t.hits <= t.total ==> 0.0 <= r.rate <= 100.0 && (r.rate == 0.0 <==> t.hits == 0)
  {
    Rated(t.key, t.total, t.hits, Conversion(t.hits, t.total))
  }

  /** `r` holds the figures of source `r.name` among the leads. */
  predicate RatedFor(leads: seq<Lead>, r: Rated)
  {
    && r.total == Count(leads, KeyIs(SourceKey(), r.name)) >= 1
    && r.converted == Count(leads, KeyAndHit(SourceKey(), Won(), r.name))
    && r.converted <= r.total
    && 0.0 <= r.rate <= 100.0
  }

  /** A shown row holds the figures of source `row.name` among the leads. */
  predicate RowFor(leads: seq<Lead>, row: PerformanceRow)
  {
    && row.total == Count(leads, KeyIs(SourceKey(), row.name)) >= 1
    && row.converted == Count(leads, KeyAndHit(SourceKey(), Won(), row.name))
    && 0 <= row.converted <= row.total
    && 0.0 <= row.rate <= 100.0
  }

  /** Every source of the leads with its conversion rate, in first-seen order. */
  function SourceRates(leads: seq<Lead>): (rs: seq<Rated>)
    ensures |rs| == |GroupBy(leads, SourceKey(), Won())|
    ensures forall i | 0 <= i < |rs| :: rs[i] == RateOf(GroupBy(leads, SourceKey(), Won())[i])
  {
    var all := GroupBy(leads, SourceKey(), Won());
    seq(|all|, i requires 0 <= i < |all| => RateOf(all[i]))
  }

  /** Each rated source holds the figures of its own leads. */
  lemma SourceRatesFor(leads: seq<Lead>)
    ensures forall r | r in SourceRates(leads) :: RatedFor(leads, r)
  {
    var all := GroupBy(leads, SourceKey(), Won());
    var rs := SourceRates(leads);
    GroupByCounts(leads, SourceKey(), Won());
    forall r | r in rs ensures RatedFor(leads, r) {
      var i :| 0 <= i < |rs| && rs[i] == r;
      assert all[i] in all;
      EntryBounds(leads, SourceKey(), Won(), all[i]);
    }
  }

  function PerformanceOf(r: Rated): PerformanceRow
  {
    PerformanceRow(r.name, r.rate, r.total, r.converted, RateClass(r.rate))
  }

  function ServerPerformance(row: ServerRow): PerformanceRow
  {
    PerformanceRow(row.source, row.conversionRate, row.totalLeads, row.converted, RateClass(row.conversionRate))
  }

  /** The first five rows the server sent, in the server's order and with
      its figures, each classed by its rate. */
  function ServerRanking(given: seq<ServerRow>): (rows: seq<PerformanceRow>)
    ensures |rows| == if |given| < Shown then |given| else Shown
    ensures forall i | 0 <= i < |rows| ::
              && rows[i].name == given[i].source
              && rows[i].rate == given[i].conversionRate
              && rows[i].total == given[i].totalLeads
              && rows[i].converted == given[i].converted
              && rows[i].rateClass == RateClass(rows[i].rate)
              && (rows[i].rateClass == "poor" <==> given[i].conversionRate < 20.0)
              && (rows[i].rateClass == "good" <==> given[i].conversionRate >= 40.0)
  {
    var shown := Take(given, Shown);
    seq(|shown|, i requires 0 <= i < |shown| => ServerPerformance(shown[i]))
  }

  function Classify(rs: seq<Rated>): (rows: seq<PerformanceRow>)
    ensures |rows| == |rs|
    ensures forall i | 0 <= i < |rs| :: rows[i] == PerformanceOf(rs[i])
  {
    seq(|rs|, i requires 0 <= i < |rs| => PerformanceOf(rs[i]))
  }

  /** The leads' five sources with the highest conversion rate. */
  function LocalRanking(leads: seq<Lead>): (rows: seq<PerformanceRow>)
    ensures |rows| == |Top(SourceRates(leads), ByRate(), Shown)| <= Shown
    ensures forall i | 0 <= i < |rows| ::
              rows[i] == PerformanceOf(Top(SourceRates(leads), ByRate(), Shown)[i])
    ensures forall i, j | 0 <= i < j < |rows| :: rows[i].rate >= rows[j].rate
  {
    var top := Top(SourceRates(leads), ByRate(), Shown);
    assert forall i, j | 0 <= i < j < |top| :: ByRate()(top[i]) >= ByRate()(top[j]);
    Classify(top)
  }

  /** Each shown row holds the figures of its own source's leads. */
  lemma LocalRankingRows(leads: seq<Lead>)
    ensures forall row | row in LocalRanking(leads) :: RowFor(leads, row)
  {
    var top := Top(SourceRates(leads), ByRate(), Shown);
    var rows := LocalRanking(leads);
    SourceRatesFor(leads);
    forall row | row in rows ensures RowFor(leads, row) {
      var i :| 0 <= i < |rows| && rows[i] == row;
      var r := top[i];
      assert r in multiset(top);
      assert r in multiset(SourceRates(leads));
      assert RatedFor(leads, r);
      assert row == PerformanceOf(r);
    }
  }

  /** `renderSourcesPerformance()`. When the server sent
      `sourcePerformance` (an empty array counts, being truthy), its first
      five rows are shown as given; otherwise the leads' sources are ranked
      by conversion rate. */
  function SourcesPerformance(leads: seq<Lead>, server: Option<seq<ServerRow>>): (rows: seq<PerformanceRow>)
    ensures |rows| <= Shown
    ensures forall i | 0 <= i < |rows| :: rows[i].rateClass == RateClass(rows[i].rate)
    ensures server.Some? ==> rows == ServerRanking(server.value)
    ensures server.None? ==> rows == LocalRanking(leads)
  {
    match server
    case Some(given) => ServerRanking(given)
    case None => LocalRanking(leads)
  }

  // ---------------------------------------------------------------------
  // Properties shared by the rankings

  /** Every lead is in exactly one group: the group totals add up to the
      number of leads. */
  lemma GroupTotals(leads: seq<Lead>)
    ensures TotalOf(GroupBy(leads, SourceKey(), NoTest())) == |leads|
    ensures TotalOf(GroupBy(leads, AgentKey(), Won())) == |leads|
    ensures TotalOf(GroupBy(leads, SourceKey(), Won())) == |leads|
  {
    GroupByTotal(leads, SourceKey(), NoTest());
    GroupByTotal(leads, AgentKey(), Won());
    GroupByTotal(leads, SourceKey(), Won());
  }

  /** A ranking keeps the highest-scoring entries: no entry left out scores
      above one that is shown. Ties are broken by first-seen order: the
      entries of one score that are shown are the first of that score among
      the entries, and the entries are in the order their keys first occur
      among the leads. */
  lemma RankingKeepsBest(leads: seq<Lead>, key: Lead -> string, hit: Lead -> bool, score: Tally -> real, v: real)
    ensures var all := GroupBy(leads, key, hit);
            var top := Top(all, score, Shown);
            && (forall x, y | x in multiset(all) - multiset(top) && y in top :: score(x) <= score(y))
            && Filter(top, ScoreIs(score, v)) <= Filter(all, ScoreIs(score, v))
            && InFirstSeenOrder(leads, key, all)
  {
    var all := GroupBy(leads, key, hit);
    TopIsHighest(all, score, Shown);
    TopKeepsTieOrder(all, score, Shown, v);
    GroupByFirstSeen(leads, key, hit);
  }

  /** The same for the conversion-rate ranking, which sorts the rated
      sources. */
  lemma RateRankingKeepsBest(leads: seq<Lead>, v: real)
    ensures var all := SourceRates(leads);
            var top := Top(all, ByRate(), Shown);
            && (forall x, y | x in multiset(all) - multiset(top) && y in top :: x.rate <= y.rate)
            && Filter(top, ScoreIs(ByRate(), v)) <= Filter(all, ScoreIs(ByRate(), v))
            && InFirstSeenOrder(leads, SourceKey(), GroupBy(leads, SourceKey(), Won()))
  {
    var all := SourceRates(leads);
    TopIsHighest(all, ByRate(), Shown);
    TopKeepsTieOrder(all, ByRate(), Shown, v);
    GroupByFirstSeen(leads, SourceKey(), Won());
  }
}
