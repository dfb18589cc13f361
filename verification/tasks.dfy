/** The task list of `renderTodayTasks`: up to two follow-ups due today,
    then up to three hot leads, or two standing reminders when there is
    neither. */
module Tasks {
  import opened JsCore
  import opened Seqs
  import opened Leads

  /** A task as the list renders it. `priority` is "high" or "normal". */
  datatype Task = Task(title: string, completed: bool, priority: string)

  /** What `toDateString()` returns for an Invalid Date. */
  const InvalidDateString: string := "Invalid Date"

  const MaxFollowups: nat := 2
  const MaxHot: nat := 3

  /** `l.priority === "Hot"`. */
  predicate IsHot(l: Lead)
  {
    l.priority == Some("Hot")
  }

  /** The local date string of a follow-up field once parsed. */
  function DateStringOf(cal: Calendar, d: DateField): string
    requires d != Absent
  {
    match d
    case At(ms) => cal.dateString(ms)
    case Unparsable => InvalidDateString
  }

  /** The follow-up filter: `nextFollowUpDate || nextFollowUp` is set and
      falls on `today`, and the stage is neither "Closed Won" nor
      "Closed Lost". Any other stage, "Won" included, passes. */
  predicate FollowupToday(cal: Calendar, today: string, l: Lead)
  {
    var d := FirstDate([l.nextFollowUpDate, l.nextFollowUp]);
    && d != Absent
    && DateStringOf(cal, d) == today
    && l.stage != Some("Closed Won")
    && l.stage != Some("Closed Lost")
  }

  function DueToday(cal: Calendar, today: string): Lead -> bool
  {
    l => FollowupToday(cal, today, l)
  }

  function Hot(): Lead -> bool
  {
    l => IsHot(l)
  }

  function FollowupTask(l: Lead): Task
  {
    Task("Follow up with " + Display(l.name) + " (" + FirstTruthy([l.callbackReason], "Callback") + ")",
         false, "high")
  }

  function HotTask(l: Lead): Task
  {
    Task("Contact " + Display(l.name) + " - Hot lead from " + Display(l.source), false, "high")
  }

  /** The two reminders shown when there is nothing else to do. */
  const Defaults: seq<Task> := [
    Task("Review pending leads", false, "normal"),
    Task("Check scheduled viewings", false, "normal")
  ]

  /** The leads behind the follow-up tasks, in list order. */
  function DueLeads(leads: seq<Lead>, now: int, cal: Calendar): (r: seq<Lead>)
    ensures |r| <= MaxFollowups
    ensures r <= Filter(leads, DueToday(cal, cal.dateString(now)))
    ensures forall l | l in r :: l in leads && FollowupToday(cal, cal.dateString(now), l)
    ensures |r| == if Count(leads, DueToday(cal, cal.dateString(now))) < MaxFollowups
                   then Count(leads, DueToday(cal, cal.dateString(now))) else MaxFollowups
  {
    var r := Take(Filter(leads, DueToday(cal, cal.dateString(now))), MaxFollowups);
    assert forall l | l in r :: l in Filter(leads, DueToday(cal, cal.dateString(now)));
    r
  }

  /** The leads behind the hot-lead tasks, in list order. */
  function HotLeads(leads: seq<Lead>): (r: seq<Lead>)
    ensures |r| <= MaxHot
    ensures r <= Filter(leads, Hot())
    ensures forall l | l in r :: l in leads && IsHot(l)
    ensures |r| == if Count(leads, Hot()) < MaxHot then Count(leads, Hot()) else MaxHot
  {
    var r := Take(Filter(leads, Hot()), MaxHot);
    assert forall l | l in r :: l in Filter(leads, Hot());
    r
  }

  /** `renderTodayTasks()`: the tasks shown, after `slice(0, 5)`. */
  function TodayTasks(leads: seq<Lead>, now: int, cal: Calendar): (tasks: seq<Task>)
    ensures 1 <= |tasks| <= 5
    ensures forall t | t in tasks :: !t.completed
    ensures var due, hot := DueLeads(leads, now, cal), HotLeads(leads);
            if due == [] && hot == [] then tasks == Defaults
            else
              && |tasks| == |due| + |hot|
              && (forall i | 0 <= i < |due| :: tasks[i] == FollowupTask(due[i]))
              && (forall i | 0 <= i < |hot| :: tasks[|due| + i] == HotTask(hot[i]))
  {
    var due, hot := DueLeads(leads, now, cal), HotLeads(leads);
    var all := seq(|due|, i requires 0 <= i < |due| => FollowupTask(due[i]))
             + seq(|hot|, i requires 0 <= i < |hot| => HotTask(hot[i]));
    var tasks := if all == [] then Defaults else all;
    Take(tasks, 5)
  }

  // ---------------------------------------------------------------------
  // Properties

  /** The reminders appear exactly when no lead has a follow-up today and
      no lead is hot. */
  lemma DefaultsIffNothingToDo(leads: seq<Lead>, now: int, cal: Calendar)
    ensures TodayTasks(leads, now, cal) == Defaults
        <==> forall l | l in leads :: !FollowupToday(cal, cal.dateString(now), l) && !IsHot(l)
  {
    var today := cal.dateString(now);
    if forall l | l in leads :: !FollowupToday(cal, today, l) && !IsHot(l) {
      CountNone(leads, DueToday(cal, today));
      CountNone(leads, Hot());
    } else {
      var l :| l in leads && (FollowupToday(cal, today, l) || IsHot(l));
      SomethingToDo(leads, now, cal, l);
    }
  }

  /** One lead with a follow-up today, or one hot lead, puts a high-priority
      task first or right after the follow-ups, which no reminder is. */
  lemma SomethingToDo(leads: seq<Lead>, now: int, cal: Calendar, l: Lead)
    requires l in leads && (FollowupToday(cal, cal.dateString(now), l) || IsHot(l))
    ensures TodayTasks(leads, now, cal) != Defaults
  {
    var today := cal.dateString(now);
    var tasks := TodayTasks(leads, now, cal);
    assert Defaults[0].priority == "normal" && Defaults[1].priority == "normal";
    if FollowupToday(cal, today, l) {
      assert l in Filter(leads, DueToday(cal, today));
      assert tasks[0] == FollowupTask(DueLeads(leads, now, cal)[0]);
    } else {
      assert l in Filter(leads, Hot());
      var k := |DueLeads(leads, now, cal)|;
      assert tasks[k] == HotTask(HotLeads(leads)[0]);
    }
  }

  /** The stage test names only "Closed Won" and "Closed Lost": a won deal
      recorded with the stage "Won" still gets a follow-up task. */
  lemma WonStillFollowedUp(cal: Calendar, today: string, l: Lead)
    requires l.stage == Some("Won")
    requires l.nextFollowUpDate.At? && cal.dateString(l.nextFollowUpDate.ms) == today
    ensures FollowupToday(cal, today, l)
  {
  }

  /** An unparsable follow-up date matches no real day: it renders as
      "Invalid Date". */
  lemma UnparsableNeverToday(cal: Calendar, today: string, l: Lead)
    requires FirstDate([l.nextFollowUpDate, l.nextFollowUp]) == Unparsable
    requires today != InvalidDateString
    ensures !FollowupToday(cal, today, l)
  {
  }
}
