/** `getTimeAgo`: how long ago an instant was, in the largest unit that
    fits, on a ladder of minute, hour, day and week thresholds. */
module TimeAgo {
  import opened JsCore

  const Minute: int := 60
  const Hour: int := 3600
  const Day: int := 86400
  const Week: int := 604800

  /** The rung of the ladder an age lands on; `NotANumber` is the age of an
      Invalid Date, for which every comparison fails. */
  datatype Ago = JustNow | Minutes(n: int) | Hours(n: int) | Days(n: int) | Weeks(n: int) | NotANumber

  /** `Math.floor((new Date() - date) / 1000)`, the age in whole seconds;
      Dafny's `/` by a positive divisor rounds down, as `Math.floor` does. */
  function Seconds(at: int, now: int): int
  {
    (now - at) / 1000
  }

  /** The rung for an age of `s` seconds. */
  function Rung(s: int): (a: Ago)
    ensures a.JustNow? <==> s < Minute
    ensures a.Minutes? ==> 1 <= a.n < 60 && a.n * Minute <= s < (a.n + 1) * Minute
    ensures a.Hours? ==> 1 <= a.n < 24 && a.n * Hour <= s < (a.n + 1) * Hour
    ensures a.Days? ==> 1 <= a.n < 7 && a.n * Day <= s < (a.n + 1) * Day
    ensures a.Weeks? ==> 1 <= a.n && a.n * Week <= s < (a.n + 1) * Week
    ensures !a.NotANumber?
  {
    if s < Minute then JustNow
    else if s < Hour then Minutes(s / Minute)
    else if s < Day then Hours(s / Hour)
    else if s < Week then Days(s / Day)
    else Weeks(s / Week)
  }

  /** The rung for an instant, `None` being an Invalid Date. */
  function AgoOf(date: Option<int>, now: int): (a: Ago)
    ensures date.None? <==> a.NotANumber?
  {
    match date
    case None => NotANumber
    case Some(at) => Rung(Seconds(at, now))
  }

  /** The text shown for a rung. */
  function Render(a: Ago): string
  {
    match a
    case JustNow => "Just now"
    case Minutes(n) => IntToString(n) + " minutes ago"
    case Hours(n) => IntToString(n) + " hours ago"
    case Days(n) => IntToString(n) + " days ago"
    case Weeks(n) => IntToString(n) + " weeks ago"
    case NotANumber => "NaN weeks ago"
  }

  function IntToString(n: int): string
  {
    if n < 0 then "-" + NatToString(-n) else NatToString(n)
  }

  /** `getTimeAgo(date)` read at instant `now`: an Invalid Date reads
      "NaN weeks ago", as every threshold test on NaN fails. */
  function GetTimeAgo(date: Option<int>, now: int): (text: string)
    ensures date.None? ==> text == "NaN weeks ago"
    ensures date.Some? && Seconds(date.value, now) < Minute ==> text == "Just now"
    ensures date.Some? && Minute <= Seconds(date.value, now) < Hour ==>
              text == NatToString(Seconds(date.value, now) / Minute) + " minutes ago"
    ensures date.Some? && Hour <= Seconds(date.value, now) < Day ==>
              text == NatToString(Seconds(date.value, now) / Hour) + " hours ago"
    ensures date.Some? && Day <= Seconds(date.value, now) < Week ==>
              text == NatToString(Seconds(date.value, now) / Day) + " days ago"
    ensures date.Some? && Week <= Seconds(date.value, now) ==>
              text == NatToString(Seconds(date.value, now) / Week) + " weeks ago"
  {
    Render(AgoOf(date, now))
  }

  // ---------------------------------------------------------------------
  // Properties

  /** The ladder's position: rungs further up are for larger ages. */
  function Level(a: Ago): nat
  {
    match a
    case JustNow => 0
    case Minutes(_) => 1
    case Hours(_) => 2
    case Days(_) => 3
    case Weeks(_) => 4
    case NotANumber => 5
  }

  /** An older instant never lands on a lower rung, nor on a smaller count
      of the same unit. */
  lemma RungMonotone(s: int, t: int)
    requires s <= t
    ensures Level(Rung(s)) <= Level(Rung(t))
    ensures Level(Rung(s)) == Level(Rung(t)) && !Rung(s).JustNow? ==> Rung(s).n <= Rung(t).n
  {
    var a, b := Rung(s), Rung(t);
    if Level(a) == Level(b) && !a.JustNow? {
      match a
      case Minutes(_) => DivMonotone(s, t, Minute);
      case Hours(_) => DivMonotone(s, t, Hour);
      case Days(_) => DivMonotone(s, t, Day);
      case Weeks(_) => DivMonotone(s, t, Week);
    }
  }

  lemma DivMonotone(s: int, t: int, d: int)
    requires s <= t && d > 0
    ensures s / d <= t / d
  {
    var q1, q2 := s / d, t / d;
    assert q1 * d <= s && t < (q2 + 1) * d;
    if q2 < q1 {
      MulMonotone(q2 + 1, q1, d);
      assert false;
    }
  }

  lemma {:induction false} MulMonotone(a: int, b: int, d: int)
    requires a <= b && d > 0
    ensures a * d <= b * d
    decreases b - a
  {
    if a < b {
      MulMonotone(a + 1, b, d);
      assert (a + 1) * d == a * d + d;
    }
  }

  /** A future instant, or one under a minute old, is "Just now". */
  lemma RecentIsJustNow(at: int, now: int)
    requires at >= now - 59999
    ensures GetTimeAgo(Some(at), now) == "Just now"
  {
  }
}
