/** The selection behind `renderUpcomingFollowups`: from the follow-up
    records the server sent, those due within the next seven days, soonest
    first, at most five, each with the name, the reason and a "days until"
    label. */
module Followups {
  import opened JsCore
  import opened Seqs
  import opened Leads

  /** How many follow-ups the list shows. */
  const Shown: nat := 5

  /** The look-ahead window, seven days in milliseconds. */
  const WeekMs: int := 7 * DayMs

  /** `f.callbackDateTime || f.nextFollowUpDate || f.nextFollowDate`. */
  function FollowupDate(f: Lead): DateField
  {
    FirstDate([f.callbackDateTime, f.nextFollowUpDate, f.nextFollowDate])
  }

  /** The record has a valid follow-up date in `[now, now + 7 days]`. */
  predicate DueWithinWeek(f: Lead, now: int)
  {
    var d := FollowupDate(f);
    d.At? && now <= d.ms <= now + WeekMs
  }

  function Due(now: int): Lead -> bool
  {
    f => DueWithinWeek(f, now)
  }

  /** The follow-up instant, for sorting; every record sorted has one. */
  function DueAt(f: Lead): int
  {
    match FollowupDate(f)
    case At(ms) => ms
    case _ => 0
  }

  /** Soonest first: the ascending comparator `dateA - dateB` is a
      descending sort on the negated instant. */
  function Soonest(): Lead -> real
  {
    f => -(DueAt(f) as real)
  }

  /** One entry of the list. */
  datatype FollowupItem = FollowupItem(name: string, reason: string, daysUntil: int, when: string)

  datatype UpcomingList = NoUpcoming | Items(items: seq<FollowupItem>)

  /** `Math.ceil((followupDate - now) / 86400000)`. */
  function DaysUntil(at: int, now: int): (d: int)
    requires now <= at <= now + WeekMs
    ensures 0 <= d <= 7
    ensures (d - 1) * DayMs < at - now <= d * DayMs
  {
    CeilDiv(at - now, DayMs)
  }

  /** `daysUntil === 0 ? "Today" : daysUntil === 1 ? "Tomorrow" : daysUntil + " days"`. */
  function WhenLabel(daysUntil: nat): string
  {
    if daysUntil == 0 then "Today"
    else if daysUntil == 1 then "Tomorrow"
    else NatToString(daysUntil) + " days"
  }

  /** The records kept: due within the week, soonest first, the first five. */
  function Selected(records: seq<Lead>, now: int): (r: seq<Lead>)
    ensures |r| <= Shown
    ensures |r| == if Count(records, Due(now)) < Shown then Count(records, Due(now)) else Shown
    ensures forall f | f in r :: f in records && DueWithinWeek(f, now)
    ensures forall i, j | 0 <= i < j < |r| :: DueAt(r[i]) <= DueAt(r[j])
  {
    var due := Filter(records, Due(now));
    var top := Top(due, Soonest(), Shown);
    forall f | f in top ensures f in due {
      assert f in multiset(top);
    }
    forall i, j | 0 <= i < j < |top| ensures DueAt(top[i]) <= DueAt(top[j]) {
      assert Soonest()(top[i]) >= Soonest()(top[j]);
    }
    top
  }

  function ItemOf(f: Lead, now: int): (item: FollowupItem)
    requires DueWithinWeek(f, now)
    ensures 0 <= item.daysUntil <= 7
  {
    var days := DaysUntil(FollowupDate(f).ms, now);
    FollowupItem(
      FirstTruthy([f.leadName, f.name], "Unknown"),
      FirstTruthy([f.callbackReason, f.notInterestedReason, f.nextFollow], "Follow-up"),
      days,
      WhenLabel(days))
  }

  /** `renderUpcomingFollowups()` over the server's follow-up records. */
  function UpcomingFollowups(records: seq<Lead>, now: int): (u: UpcomingList)
    ensures u.NoUpcoming? <==> forall f | f in records :: !DueWithinWeek(f, now)
    ensures u.Items? ==>
              && 1 <= |u.items| <= Shown
              && u.items == ItemsOf(Selected(records, now), now)
  {
    var chosen := Selected(records, now);
    DueSelected(records, now);
    if chosen == [] then NoUpcoming else Items(ItemsOf(chosen, now))
  }

  /** One list entry per selected record, in order. */
  function ItemsOf(chosen: seq<Lead>, now: int): (items: seq<FollowupItem>)
    requires forall f | f in chosen :: DueWithinWeek(f, now)
    ensures |items| == |chosen|
    ensures forall i | 0 <= i < |chosen| :: items[i] == ItemOf(chosen[i], now)
  {
    seq(|chosen|, i requires 0 <= i < |chosen| => assert chosen[i] in chosen; ItemOf(chosen[i], now))
  }

  // ---------------------------------------------------------------------
  // Properties

  /** Something is shown exactly when some record is due within the week. */
  lemma DueSelected(records: seq<Lead>, now: int)
    ensures Selected(records, now) == [] <==> forall f | f in records :: !DueWithinWeek(f, now)
  {
    var due := Filter(records, Due(now));
    if exists f | f in records :: DueWithinWeek(f, now) {
      var f :| f in records && DueWithinWeek(f, now);
      var i :| 0 <= i < |records| && records[i] == f;
      assert f in due;
    } else {
      if due != [] {
        assert due[0] in due;
      }
    }
  }

  /** The list keeps the soonest follow-ups: any due record left out is due
      no sooner than every one shown; records due at the same instant keep
      their order in the server's list. */
  lemma SelectedAreSoonest(records: seq<Lead>, now: int, v: real)
    ensures var due := Filter(records, Due(now));
            var r := Selected(records, now);
            && (forall x, y | x in multiset(due) - multiset(r) && y in r :: DueAt(y) <= DueAt(x))
            && Filter(r, ScoreIs(Soonest(), v)) <= Filter(due, ScoreIs(Soonest(), v))
  {
    var due := Filter(records, Due(now));
    TopIsHighest(due, Soonest(), Shown);
    TopKeepsTieOrder(due, Soonest(), Shown, v);
  }

  /** The date probed is the first field that is set, even when it does not
      parse: a record whose `callbackDateTime` is unparsable is never shown,
      whatever its other fields say. */
  lemma FirstSetFieldDecides(f: Lead, now: int)
    requires f.callbackDateTime == Unparsable
    ensures !DueWithinWeek(f, now)
  {
  }

  /** The label: "Today" only for a follow-up due at this very instant,
      "Tomorrow" for one due within the next 24 hours, and otherwise the
      number of started days. */
  lemma WhenLabelMeaning(at: int, now: int)
    requires now <= at <= now + WeekMs
    ensures WhenLabel(DaysUntil(at, now)) == "Today" <==> at == now
    ensures WhenLabel(DaysUntil(at, now)) == "Tomorrow" <==> now < at <= now + DayMs
    ensures at > now + DayMs ==>
              WhenLabel(DaysUntil(at, now)) == NatToString(DaysUntil(at, now)) + " days"
              && 2 <= DaysUntil(at, now) <= 7
  {
    var d := DaysUntil(at, now);
    if d >= 2 {
      var s := NatToString(d);
      assert |s| == 1 && s[0] == Digit(d);
      assert (s + " days")[0] != 'T';
    }
  }
}
