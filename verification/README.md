# Real-estate CRM dashboard: the aggregation layer, in Dafny

The dashboard page of the CRM (`static/js/dashboard.js`) loads the cached
lead list, the server's follow-up records and its analytics, and turns them
into the cards, charts and lists of the page. This project models the pure
part of that work, the part that decides what the page shows:

- the headline cards of `updateMetrics`, with the trailing date window of
  `getFilteredLeads`, the window before it (`getPreviousLeads`) and the
  period-over-period change (`calculateChange`) with its indicator class;
- the activity series of `getActivityData` (daily, weekly or monthly
  buckets of new and converted leads) and the arithmetic that
  `renderActivityChart` uses to place its gridlines and bars;
- the pipeline donut of `renderPipelineChart`: the lead count at each of
  the five stages and the slices drawn for the non-empty ones;
- the three rankings: lead sources by number of leads
  (`renderPropertyTypes`), agents by deals closed (`renderTopAgents`), and
  sources by conversion rate (`renderSourcesPerformance`, which shows the
  server's ranking when it sent one);
- the upcoming follow-ups (`renderUpcomingFollowups`), the task list
  (`renderTodayTasks`) and the "time ago" label (`getTimeAgo`).

Modules, one per concern:

| file | module | what it holds |
|---|---|---|
| `js_core.dfy` | `JsCore` | `Option`, truthiness and `a \|\| b \|\| "default"` chains, `Math.round`, `Math.ceil` of a quotient, decimal rendering |
| `seqs.dfy` | `Seqs` | `filter`, counting, `slice(0, n)`, and a stable descending sort with its "first n" (`Top`) |
| `leads.dfy` | `Leads` | the lead record, the parsed date fields, the local calendar, the stage and owner tests |
| `windows.dfy` | `Windows` | the current and previous date windows and the percentage change |
| `metrics.dfy` | `Metrics` | the values `updateMetrics` writes into the cards |
| `activity.dfy` | `Activity` | the buckets of `getActivityData` |
| `bar_chart.dfy` | `BarChart` | the scale, gridlines and bar geometry of the activity chart |
| `pipeline.dfy` | `Pipeline` | the stage counts and donut slices |
| `grouping.dfy` | `Grouping` | the count-by-key `forEach` shared by the rankings, read back in `Object.entries` order |
| `rankings.dfy` | `Rankings` | the three rankings |
| `followups.dfy` | `Followups` | the upcoming follow-up list |
| `tasks.dfy` | `Tasks` | the task list |
| `time_ago.dfy` | `TimeAgo` | the relative-time label |

Conventions of the model:

- Each widget reads the clock itself; the model takes one instant `now`
  (milliseconds) per call.
- `toDateString()`, `getMonth()` and `getDay()` depend on the browser's
  time zone; they are the three functions of a `Calendar` value passed in.
- A creation date that does not parse is `None`, and every comparison
  with it is false, as with JavaScript's NaN. A follow-up date field is
  `Absent` (a falsy value, skipped by `||`), `Unparsable` (a non-empty
  string yielding an Invalid Date) or `At(ms)`.
- `Array.prototype.sort` is stable (ECMA-262 requires it since the 2019
  edition), so ties keep their input order. The sort is modelled as a
  stable insertion sort on scores, highest first.
- `Object.entries` on the tally objects lists keys in the order they were
  first seen, which holds when no key is an integer-like string. The model
  also takes every key to be an ordinary one: the tallies are plain
  objects, so a key that names an `Object.prototype` member (such as
  `constructor` or `__proto__`) reads an inherited value instead of
  starting a fresh count.
- Donut angles are in turns (a full circle is 1); the canvas's radians
  are the same figures times 2 pi.

## Model

| member | source | states |
|---|---|---|
| JsCore.FirstTruthy | static/js/dashboard.js:658-659 | the value of an `a \|\| b \|\| "default"` chain: the first truthy alternative when there is one, and the default when none is truthy |
| JsCore.CeilDiv | static/js/dashboard.js:657 | `Math.ceil(a / b)` for a positive divisor: the least `r` with `a <= r * b` |
| JsCore.Round | static/js/dashboard.js:347 | `Math.round` lands within half a unit of its argument |
| JsCore.RoundMonotone | static/js/dashboard.js:347 | `Math.round` never decreases as its argument grows |
| JsCore.NatToString | static/js/dashboard.js:667 | a count renders as one or more decimal digits with no leading zero, and those digits read back as the count |
| Leads.FirstDate | static/js/dashboard.js:622-629 | the date probed is the first field that is set, even if it does not parse; nothing is probed exactly when no field is set |
| Windows.FilteredLeads | static/js/dashboard.js:289-293 | exactly the leads created at or after `now - dateRange` days are kept, future-dated ones included |
| Windows.PreviousLeads | static/js/dashboard.js:295-304 | exactly the leads created in the closed interval from `2 * dateRange` to `dateRange` days ago are kept |
| Windows.WindowsMeetAtBoundary | static/js/dashboard.js:289-304 | the two windows overlap in a single instant, `now - dateRange` days, and only for a non-negative range; a lead created then is counted in both |
| Windows.WindowsCoverRecentLeads | static/js/dashboard.js:289-304 | together the windows hold exactly the leads created at or after `2 * dateRange` days ago; an unparsable date is in neither |
| Windows.CalculateChange | static/js/dashboard.js:306-309 | the change is the relative difference in percent; growth from nothing is 100, nothing to nothing is 0; it is non-negative exactly when the count did not drop and zero exactly when it is unchanged |
| Windows.ChangeClass | static/js/dashboard.js:283-287 | the indicator is "positive" for a non-negative change and "negative" otherwise |
| Windows.ChangeClassFollowsCounts | static/js/dashboard.js:224-226 | the lead-count indicator is "positive" exactly when the current window holds at least as many leads as the previous one |
| Metrics.UpdateMetrics | static/js/dashboard.js:215-281 | total leads is the size of the window and the lead-count change compares it with the previous window; active, closed and closed-lost leads of the window add up to it; closed deals are the won leads of the window; new leads today are the leads created on today's calendar day; scheduled viewings are the assigned leads of the window, never more than the total; viewings today are the leads created today that are assigned, never more than the new leads today; this month's deals are the won leads of the current month index; the other three indicators are 8, 15 and 22 |
| Metrics.StageOrEmptyMatches | static/js/dashboard.js:239-241 | comparing `stage \|\| ""` with a non-empty stage name is comparing the stage itself |
| Metrics.PartitionByOutcome | static/js/dashboard.js:239-250 | every lead is active, closed, or closed-lost, and only one of them |
| Metrics.ClosedIsWon | static/js/dashboard.js:247-250 | the closed-deal test on `stage \|\| ""` counts the same leads as the won test on the stage |
| Metrics.WonThisMonthIsWon | static/js/dashboard.js:254-263 | this month's deals are the won leads whose creation month index is the current one |
| Metrics.ThisMonthDealsIgnoresYear | static/js/dashboard.js:254-263 | a won lead created in the current month index of any year, inside the date window or not, adds one to this month's deals |
| Metrics.ThirtyDayScenario | static/js/dashboard.js:218-250 | with a 30-day window, a lead created now is counted and a deal won 40 days ago is not: one lead, one active listing, no closed deal |
| Activity.PeriodOf | static/js/dashboard.js:395-424 | "daily" and "weekly" pick their branches; every other value falls through to the monthly one |
| Activity.MakeBucket | static/js/dashboard.js:396-406 | a bucket's new count is the number of its leads and its converted count is no larger; a daily bucket is captioned with the weekday name of its day, weekly bucket `k` with "W" and `47 + k`, a monthly one with its month name |
| Activity.GetActivityData | static/js/dashboard.js:391-442 | seven daily buckets or six weekly or monthly ones, oldest first, each counting the leads of its period, converted never above new; daily captions are the weekday names of the seven days, weekly captions the fixed "W47" to "W52" whatever the date |
| Activity.ConvertedAreWonInBucket | static/js/dashboard.js:400 | the converted count of a bucket is the number of its leads at stage "Closed Won" or "Won" |
| Activity.WeeklyTotal | static/js/dashboard.js:408-422 | the six weekly windows are half-open and contiguous: their new counts add up to the leads created in the 42 days before `now` |
| Activity.DailyTotal | static/js/dashboard.js:395-407 | when the seven days differ, the daily new counts add up to the leads created on any of those days |
| Activity.MonthKeysConsecutive | static/js/dashboard.js:427-429 | the six month indices are consecutive modulo 12, end with the current month and are pairwise different |
| Activity.MonthlyIndices | static/js/dashboard.js:423-439 | the monthly buckets are the six consecutive month indices ending with the current month, each labelled by its month name |
| Activity.MonthlyTotal | static/js/dashboard.js:423-439 | the monthly new counts add up to the leads created in any of the six month indices, of any year |
| BarChart.MaxValue | static/js/dashboard.js:325 | the scale maximum is at least 1, bounds every new and converted count, and is 1 or one of those counts |
| BarChart.Gridlines | static/js/dashboard.js:337-348 | six evenly spaced gridlines, line `i` at `i` fifths of the plot height below the top; line `i` is labelled with `(5 - i)` fifths of the maximum rounded to the nearest integer, so the labels run from the maximum down to 0 without increasing |
| BarChart.GridlineAt | static/js/dashboard.js:338-347 | gridline `i` lies `i` fifths of the plot height below the top and one fifth below its predecessor, and its label is within half a unit of `5 - i` fifths of the maximum |
| BarChart.GridValuesDescend | static/js/dashboard.js:347 | the rounded labels run from the maximum to 0 without increasing |
| BarChart.LayOut | static/js/dashboard.js:320-353 | the plot area is the canvas less a 40-pixel margin on each side; six gridlines; one bar pair per bucket carrying its caption; the scale bounds every value |
| BarChart.BarHeightsScale | static/js/dashboard.js:352-353 | a bar's height is its value's share of the maximum of the plot height, so every bar fits between the baseline and the top gridline |
| BarChart.PairsTileChartWidth | static/js/dashboard.js:330-370 | bar pair `k` starts at the `k`-th of `n` equal slots and its converted bar ends inside that slot, so no bar enters the right margin |
| BarChart.RenderActivityChart | static/js/dashboard.js:316-389 | seven bar pairs for the daily series and six otherwise, on a scale that bounds every count |
| Pipeline.Tallies | static/js/dashboard.js:456-461 | one entry per stage, in stage order, with the stage's colour and the number of leads at it |
| Pipeline.StageData | static/js/dashboard.js:456-462 | every stage with a lead appears, with its count and colour, and no empty stage does |
| Pipeline.Slices | static/js/dashboard.js:479-493 | one slice per stage, each spanning its share of the total, the first at the start angle and each starting where the previous ends |
| Pipeline.PipelineChartOf | static/js/dashboard.js:444-493 | "No lead data" exactly when the total is 0; a failed first arc exactly when there are leads to draw but the canvas is under 40 pixels in either direction, so the radius is negative; otherwise a donut centred on the canvas with outer radius half the smaller side less 20 pixels and inner radius 0.6 of it, with the slices of the non-empty stages from the top of the circle |
| Pipeline.StagesDistinct | static/js/dashboard.js:453 | the five stage names differ |
| Pipeline.PipelineTotal | static/js/dashboard.js:453-464 | the donut's total is the number of leads at one of the five stages; a lead at stage "Won" is not drawn |
| Pipeline.NoDataIffNoPipelineLead | static/js/dashboard.js:464-472 | "No lead data" is shown exactly when no lead is at a pipeline stage |
| Pipeline.SlicesFillCircle | static/js/dashboard.js:479-493 | the slices' sweeps add up to one full turn |
| Pipeline.SlicesFollowStages | static/js/dashboard.js:453-493 | slices come in pipeline order, each with its stage's colour and its non-zero lead count |
| Seqs.Filter | static/js/dashboard.js:289-293 | `filter` keeps exactly the elements that pass, no more elements than it was given |
| Seqs.FilterMultiplicity | static/js/dashboard.js:289-293 | `filter` keeps every passing value as many times as it occurs, and no failing one |
| Seqs.FilterKeepsOrder | static/js/dashboard.js:456-462 | `filter` keeps the input order |
| Seqs.Take | static/js/dashboard.js:533 | `slice(0, n)` is the first `n` elements, or all of them when there are fewer |
| Seqs.SortDesc | static/js/dashboard.js:531-532 | the sort with a descending comparator returns a permutation of its input, highest score first |
| Seqs.SortDescStable | static/js/dashboard.js:531-532 | the sort keeps entries of equal score in their input order |
| Seqs.Top | static/js/dashboard.js:531-533 | sort then `slice(0, n)`: `n` entries or all of them, highest first, drawn from the input |
| Seqs.TopIsHighest | static/js/dashboard.js:531-533 | no entry left out scores above one kept |
| Seqs.TopKeepsTieOrder | static/js/dashboard.js:531-533 | the kept entries of one score are the first entries of that score in the input |
| Grouping.Bump | static/js/dashboard.js:564-572 | counting one record increments the entry of its key in place, or appends a new entry of one record, and changes no other entry |
| Grouping.GroupBy | static/js/dashboard.js:563-573 | no two entries of the tally share a key |
| Grouping.GroupByCounts | static/js/dashboard.js:563-573 | each entry's total is the number of records with its key and its hits the number of those that pass the test |
| Grouping.GroupByKeys | static/js/dashboard.js:563-573 | the entries' keys are exactly the records' keys |
| Grouping.GroupByTotal | static/js/dashboard.js:563-573 | the entries' totals add up to the number of records |
| Grouping.EntryBounds | static/js/dashboard.js:563-573 | every entry counts at least one record and no more hits than records |
| Grouping.GroupByFirstSeen | static/js/dashboard.js:575 | `Object.entries` lists the keys in the order they first occur among the records |
| Rankings.Percent | static/js/dashboard.js:541 | the share of the maximum in percent: the count times 100 over the maximum, within 0 to 100, 0 exactly for a zero count, 100 exactly for the maximum |
| Rankings.Conversion | static/js/dashboard.js:584 | the conversion rate: 0 without leads, otherwise the hits times 100 over the leads, within 0 to 100, 0 exactly when nothing converted and 100 exactly when everything did |
| Rankings.RankedEntries | static/js/dashboard.js:531-533 | every ranked entry is a real entry of the tally, with its key's counts, at least one lead and no more hits than leads |
| Rankings.TotalsDescend | static/js/dashboard.js:534 | in the ranking by lead count the first count is the largest |
| Rankings.PropertyTypes | static/js/dashboard.js:524-560 | at most five sources, most leads first, each with its count and a bar between 0 and 100 percent of the first one's |
| Rankings.Shares | static/js/dashboard.js:539-541 | each bar is the entry's count times 100 over the first count, full exactly for entries with that count |
| Rankings.PropertyTypesCounts | static/js/dashboard.js:524-541 | each listed source's count is its number of leads, at least one, so the first bar is always full |
| Rankings.TopAgents | static/js/dashboard.js:562-607 | at most five agents, most deals closed first, each with its lead count, closed count and conversion rate |
| Rankings.AgentRows | static/js/dashboard.js:582-584 | each agent row keeps its entry's name and counts; its conversion is the closed count times 100 over the leads, 0 without leads, within 0 to 100 when no more deals closed than leads, 100 exactly when every lead closed and 0 exactly when none did |
| Rankings.TopAgentsCounts | static/js/dashboard.js:562-584 | each listed agent's total is its number of leads, at least one, its closed count is its won leads, and its bar lies within 0 to 100 percent |
| Rankings.RateClass | static/js/dashboard.js:745-747 | a rate below 20 is "poor", from 20 to below 40 "average", and 40 or more "good" |
| Rankings.RateOf | static/js/dashboard.js:734-739 | a source's rate is its converted count times 100 over its leads, 0 without leads; within 0 to 100, and 0 exactly when nothing converted, when no more converted than leads |
| Rankings.SourceRatesFor | static/js/dashboard.js:721-739 | every rated source holds its own lead count (at least one), its won count and a rate within 0 to 100 |
| Rankings.ServerRanking | static/js/dashboard.js:686-719 | the first five of the server's rows, or all when fewer, in the server's order and with its figures; each row's class is the one its rate falls in, so "poor" exactly below 20 and "good" exactly from 40 |
| Rankings.LocalRanking | static/js/dashboard.js:721-747 | at most five sources, highest conversion rate first |
| Rankings.LocalRankingRows | static/js/dashboard.js:721-747 | every row shown holds the figures of its own source's leads |
| Rankings.SourcesPerformance | static/js/dashboard.js:685-771 | the server's ranking when it sent one, else the local one; at most five rows, each classed by its rate |
| Rankings.GroupTotals | static/js/dashboard.js:524-528 | every lead is in exactly one source group and one agent group |
| Rankings.RankingKeepsBest | static/js/dashboard.js:531-533 | a ranking shows the highest-scoring entries, ties broken by the order in which keys first occur among the leads |
| Rankings.RateRankingKeepsBest | static/js/dashboard.js:733-741 | the conversion ranking shows the highest rates, ties broken by the order in which sources first occur |
| Followups.DaysUntil | static/js/dashboard.js:657 | the number of started days until the follow-up, between 0 and 7 |
| Followups.Selected | static/js/dashboard.js:618-644 | at most five records, each due within the week, soonest first; exactly five, or every due record when fewer are due |
| Followups.DueSelected | static/js/dashboard.js:618-644 | the selection is empty exactly when no record is due within the week |
| Followups.SelectedAreSoonest | static/js/dashboard.js:639-644 | no due record left out is due before one shown; records due at the same instant keep the server's order |
| Followups.FirstSetFieldDecides | static/js/dashboard.js:622-633 | a record whose `callbackDateTime` does not parse is never shown, whatever its other date fields hold |
| Followups.UpcomingFollowups | static/js/dashboard.js:609-683 | "No upcoming follow-ups" exactly when no record is due within the week; otherwise one to five entries for the selected records |
| Followups.WhenLabelMeaning | static/js/dashboard.js:667 | "Today" only for a follow-up due at this very instant, "Tomorrow" for one due within the next 24 hours, otherwise 2 to 7 "days" |
| Tasks.DueLeads | static/js/dashboard.js:850-860 | at most two leads, each with a follow-up today and not at "Closed Won" or "Closed Lost", taken from the front of the leads that qualify, in their order; two when at least two qualify |
| Tasks.HotLeads | static/js/dashboard.js:849 | at most three hot leads, the first ones in lead order; three when at least three are hot |
| Tasks.TodayTasks | static/js/dashboard.js:846-897 | one to five tasks, none completed: the follow-up tasks then the hot-lead tasks, or the two reminders when there are neither |
| Tasks.DefaultsIffNothingToDo | static/js/dashboard.js:875-880 | the reminders appear exactly when no lead has a follow-up today and no lead is hot |
| Tasks.SomethingToDo | static/js/dashboard.js:862-880 | one lead with a follow-up today, or one hot lead, rules the reminders out |
| Tasks.WonStillFollowedUp | static/js/dashboard.js:855 | a won deal recorded with stage "Won" still gets a follow-up task |
| Tasks.UnparsableNeverToday | static/js/dashboard.js:853-855 | a follow-up date that does not parse never falls on today |
| TimeAgo.Rung | static/js/dashboard.js:902-906 | the largest unit that fits: under a minute is "Just now", and each other rung's count is the whole number of its units in the age, below the next unit |
| TimeAgo.AgoOf | static/js/dashboard.js:899-907 | an Invalid Date, and only it, has no rung |
| TimeAgo.GetTimeAgo | static/js/dashboard.js:899-907 | an Invalid Date reads "NaN weeks ago"; an age under a minute reads "Just now"; otherwise the count of whole minutes, hours, days or weeks of the largest unit that fits, followed by that unit and "ago" |
| TimeAgo.RungMonotone | static/js/dashboard.js:902-906 | an older instant never lands on a lower rung, nor on a smaller count of the same unit |
| TimeAgo.RecentIsJustNow | static/js/dashboard.js:900-902 | a future instant, or one less than a minute old, reads "Just now" |

## Left out

- The loaders `loadData`, `loadRealTimeMetrics`, `loadLeadScores` and `loadTeamPerformance` (lines 19-56, 108-119, 155-199): network I/O. The model takes their results (the leads, the follow-up records, the server's source ranking) as parameters.
- `updateRealTimeDisplay`, `renderLeadScoresInsight` and `renderTeamPerformanceLeaderboard` (lines 31-43, 58-153): they only copy server figures into the page.
- `renderResponseAnalysis` (lines 773-808): its response time is `Math.random()`.
- `renderActivityTimeline` (lines 810-844): a date sort and markup; the `getTimeAgo` it calls is modelled.
- `formatChange` (lines 311-314) and `toFixed(1)`: floating-point formatting.
- The canvas calls (gradients, fonts, arcs, legends), the HTML templates and `innerHTML` writes, listeners, timers, `initDashboard`, `updateDateRange`, `refreshDashboard`, `toggleTask`, `scheduleViewing`, `addNewTask` and `showNotification` (lines 201-213, 909-976): presentation and event wiring.
- The separate clock reads: `updateMetrics` takes `new Date()` for today's day and the current month (lines 228, 254), and `getFilteredLeads` and `getPreviousLeads` each call `Date.now()` (lines 290, 296). The model reads one instant `now` for all of them, and Windows.WindowsMeetAtBoundary relies on that; a millisecond between the two window reads shifts the previous window against the current one.
- Time zones: the calendar views of an instant are parameters, not derived from an offset.
- Floating point: rates, percentages, shares and chart coordinates are exact reals; the canvas's radians are modelled as turns.
- The `try`/`catch` blocks and what a throw leads to. The one throw the modelled code can raise, `ctx.arc` with the negative radius of a pipeline canvas under 40 pixels, is the `ArcFails` outcome of Pipeline.PipelineChartOf; that it aborts `initDashboard` and that `loadData`'s catch (lines 192-197) then clears the leads, follow-ups and analytics and renders again is not modelled.
- Integer-like source or agent names, which `Object.entries` would list first in numeric order, and names of `Object.prototype` members: a source called `constructor` turns its count into a string (the inherited function's text followed by "1") and the comparator into NaN, and an agent called `constructor` or `__proto__` is never stored as an own entry, so it drops out of the ranking.
- A `null` name or source rendered into a task title reads "null" in the browser; the model renders every missing value as "undefined".
- `window.upcomingFollowups` unset (the loader always sets it), and the non-array server values that `||` would otherwise pass through.
- `renderPipelineChart`'s legend and the lead counts printed on the cards, which repeat figures the model computes.
- Rankings.PropertyTypes: its contract states each row's percentage only as lying within 0 to 100; that the first bar is always full is stated by Rankings.PropertyTypesCounts.
- Activity.DailyTotal: requires the seven bucket days to be different calendar days; around a daylight-saving change two 24-hour steps can land on one day, which is then counted twice.
