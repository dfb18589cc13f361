/** The lead record as the dashboard reads it from the cached lead list, the
    local-time calendar functions it consults, and the stage and owner tests
    shared by several widgets. */
module Leads {
  import opened JsCore

  /** Milliseconds in a day, `86400000` in the source. */
  const DayMs: int := 86400000

  /** A follow-up date field before and after `new Date(...)`:
      `Absent` is a falsy value (`undefined`, `null` or `""`), which `||`
      skips; `Unparsable` is a non-empty string that yields an Invalid Date;
      `At(ms)` parses to that instant. */
  datatype DateField = Absent | Unparsable | At(ms: int)

  /** One lead record. `createdAt` is the parsed creation time in
      milliseconds, `None` when `new Date(createdAt)` is an Invalid Date. */
  datatype Lead = Lead(
    name: Option<string>,
    leadName: Option<string>,
    createdAt: Option<int>,
    stage: Option<string>,
    source: Option<string>,
    priority: Option<string>,
    assignedCaller: Option<string>,
    assignedCallerName: Option<string>,
    callbackDateTime: DateField,
    nextFollowUpDate: DateField,
    nextFollowDate: DateField,
    nextFollowUp: DateField,
    callbackReason: Option<string>,
    notInterestedReason: Option<string>,
    nextFollow: Option<string>)

  type MonthIndex = m: int | 0 <= m < 12
  type WeekdayIndex = d: int | 0 <= d < 7

  /** The local-time-zone views of an instant that the dashboard uses:
      `toDateString()`, `getMonth()` and `getDay()`. They depend on the
      browser's time zone, so the model takes them as given functions. */
  datatype Calendar = Calendar(
    dateString: int -> string,
    month: int -> MonthIndex,
    weekday: int -> WeekdayIndex)

  /** `l.stage === s`. */
  predicate HasStage(l: Lead, s: string)
  {
    l.stage == Some(s)
  }

  /** The converted outcome: `stage === "Closed Won" || stage === "Won"`. */
  predicate IsWon(l: Lead)
  {
    HasStage(l, "Closed Won") || HasStage(l, "Won")
  }

  /** `l.assignedCaller || l.assignedCallerName` is truthy. */
  predicate IsAssigned(l: Lead)
  {
    Truthy(l.assignedCaller) || Truthy(l.assignedCallerName)
  }

  /** `new Date(l.createdAt).toDateString() === day`; an Invalid Date never
      matches the date string of a valid instant. */
  predicate CreatedOnDay(cal: Calendar, l: Lead, day: string)
  {
    l.createdAt.Some? && cal.dateString(l.createdAt.value) == day
  }

  /** `new Date(l.createdAt).getMonth() === m`; NaN never equals `m`. */
  predicate CreatedInMonth(cal: Calendar, l: Lead, m: int)
  {
    l.createdAt.Some? && cal.month(l.createdAt.value) == m
  }

  /** `lo <= new Date(l.createdAt) < hi`; comparisons with NaN are false. */
  predicate CreatedIn(l: Lead, lo: int, hi: int)
  {
    l.createdAt.Some? && lo <= l.createdAt.value < hi
  }

  /** `new Date(a || b || c)`: the first field that is not falsy decides,
      even when it does not parse. */
  function FirstDate(fields: seq<DateField>): (d: DateField)
    ensures d == Absent <==> forall i | 0 <= i < |fields| :: fields[i] == Absent
    ensures d != Absent ==> exists i | 0 <= i < |fields| ::
              fields[i] == d && forall j | 0 <= j < i :: fields[j] == Absent
  {
    if fields == [] then Absent
    else if fields[0] != Absent then fields[0]
    else FirstDate(fields[1..])
  }
}
