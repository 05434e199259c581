/** The student dashboard (Components/Pages/StudentPage/Student.jsx): one
    snapshot of statistics derived from the fetched tasks, reminders, study
    sessions and week timetable. The clock is an explicit `now`; the local
    weekday name and the local "HH:MM" of now are inputs too. */
module StudentDashboard {
  import opened Optional
  import opened Text
  import opened Numeric
  import opened Sorting
  import opened Records

  // ---------------------------------------------------------------- tasks

  /** The tasks counted as completed on the dashboard. */
  function CompletedCount(tasks: seq<Task>): (r: nat)
    ensures r <= |tasks|
    ensures r == |tasks| - |PendingTasks(tasks)|
  {
    CompletedPlusPending(tasks);
    |CompletedTasks(tasks)|
  }

  /** `tasks.filter(...)`: the uncompleted tasks due within seven days, in
      list order. */
  function DueSoonFilter(tasks: seq<Task>, now: int): seq<Task> {
    Filter(tasks, (t: Task) => IsDueSoon(t, now))
  }

  /** The uncompleted tasks due within seven days, earliest due first: the
      filter, each task as often as there, reordered. */
  function DueSoonTasks(tasks: seq<Task>, now: int): (r: seq<Task>)
    ensures forall t :: t in r <==> t in tasks && IsDueSoon(t, now)
    ensures multiset(r) == multiset(DueSoonFilter(tasks, now))
    ensures multiset(r) <= multiset(tasks)
    ensures SortedBy(r, DueLe)
  {
    var soon := DueSoonFilter(tasks, now);
    var r := Sort(soon, DueLe);
    DueLePreorder();
    SortSorted(soon, DueLe);
    assert forall t :: t in r <==> t in soon by {
      forall t ensures t in r <==> t in soon {
        assert t in r <==> t in multiset(r);
        assert t in soon <==> t in multiset(soon);
      }
    }
    r
  }

  /** Tasks due at the same moment keep their order in the fetched list, which
      decides which of them the cut at five keeps. */
  lemma DueSoonTasksStable(tasks: seq<Task>, now: int, k: Task)
    ensures Filter(DueSoonTasks(tasks, now), TiedWith(DueLe, k)) == Filter(DueSoonFilter(tasks, now), TiedWith(DueLe, k))
  {
    DueLePreorder();
    SortStable(DueSoonFilter(tasks, now), DueLe, k);
  }

  /** `dueSoonTasks.slice(0, 5)`: at most five, each due within [now, now + 7
      days] and not completed, ascending by due date. */
  function UpcomingTasks(tasks: seq<Task>, now: int): (r: seq<Task>)
    ensures |r| == Min(5, |DueSoonTasks(tasks, now)|)
    ensures r == DueSoonTasks(tasks, now)[..|r|]
    ensures forall t :: t in r ==> t in tasks && IsDueSoon(t, now)
    ensures SortedBy(r, DueLe)
  {
    var all := DueSoonTasks(tasks, now);
    var r := Take(all, 5);
    forall t | t in r ensures t in all {
      var i :| 0 <= i < |r| && r[i] == t;
      assert all[i] == t;
    }
    forall i, j | 0 <= i < j < |r| ensures DueLe(r[i], r[j]) {
      assert r[i] == all[i] && r[j] == all[j];
    }
    r
  }

  // ------------------------------------------------------------ next class

  const SundayFirst: seq<string> :=
    ["Sunday", "Monday", "Tuesday", "Wednesday", "Thursday", "Friday", "Saturday"]

  /** `days.indexOf(day)` over the Sunday-first week: the position, or -1. */
  function DayIndex(day: string): (r: int)
    ensures -1 <= r < 7
    ensures r >= 0 ==> SundayFirst[r] == day
    ensures r == -1 <==> day !in SundayFirst
  {
    if day == "Sunday" then 0 else if day == "Monday" then 1 else if day == "Tuesday" then 2
    else if day == "Wednesday" then 3 else if day == "Thursday" then 4
    else if day == "Friday" then 5 else if day == "Saturday" then 6 else -1
  }

  /** `days[(days.indexOf(currentDay) + 1) % 7]`: the next day of the week, and
      Sunday for a name that is not a day. */
  function Tomorrow(currentDay: string): (r: string)
    ensures r in SundayFirst
    ensures currentDay !in SundayFirst ==> r == "Sunday"
  {
    SundayFirst[(DayIndex(currentDay) + 1) % 7]
  }

  /** Each day is followed by the next one in the Sunday-first week, and
      Saturday by Sunday. */
  lemma TomorrowWraps(i: int)
    requires 0 <= i < 7
    ensures Tomorrow(SundayFirst[i]) == SundayFirst[(i + 1) % 7]
  {
    DayIndexOf(i);
  }

  /** The day names are told apart by their first two letters, so each is
      found at its own position. */
  lemma DayIndexOf(i: int)
    requires 0 <= i < 7
    ensures DayIndex(SundayFirst[i]) == i
  {
    var r := DayIndex(SundayFirst[i]);
    assert SundayFirst[r] == SundayFirst[i];
    assert SundayFirst[r][..2] == SundayFirst[i][..2];
  }

  /** `a.startTime.localeCompare(b.startTime)`, read as code-point order. */
  predicate StartLe(a: TimetableEntry, b: TimetableEntry) {
    StrLe(a.startTime, b.startTime)
  }

  lemma StartLePreorder()
    ensures TotalPreorder(StartLe)
  {
    forall a, b ensures StartLe(a, b) || StartLe(b, a) { StrLeTotal(a.startTime, b.startTime); }
    forall a, b, c | StartLe(a, b) && StartLe(b, c) ensures StartLe(a, c) {
      StrLeTransitive(a.startTime, b.startTime, c.startTime);
    }
  }

  /** `c.dayOfWeek === currentDay && c.startTime > currentTimeStr`. */
  predicate LaterToday(c: TimetableEntry, currentDay: string, currentTime: string) {
    c.dayOfWeek == currentDay && !StrLe(c.startTime, currentTime)
  }

  /** The first of `xs` after a stable sort by start time, if any. */
  function EarliestStart(xs: seq<TimetableEntry>): (r: Option<TimetableEntry>)
    ensures r.None? <==> xs == []
    ensures r.Some? ==> r.value in xs && forall c :: c in xs ==> StrLe(r.value.startTime, c.startTime)
  {
    var sorted := Sort(xs, StartLe);
    if sorted == [] then None
    else
      SortedFirstEarliest(xs);
      Some(sorted[0])
  }

  /** On a tie the earliest entry is the first of the tied ones in `xs`:
      every entry before it starts strictly later. */
  lemma EarliestStartFirst(xs: seq<TimetableEntry>)
    ensures var r := EarliestStart(xs);
      r.Some? ==> exists i :: 0 <= i < |xs| && xs[i] == r.value && forall j :: 0 <= j < i ==> !StrLe(xs[j].startTime, r.value.startTime)
  {
    if xs != [] {
      SortHeadFirstLeast(xs, StartLe);
    }
  }

  /** The head of the stable sort by start time is an entry of `xs` that
      starts no later than any other. */
  lemma SortedFirstEarliest(xs: seq<TimetableEntry>)
    requires xs != []
    ensures Sort(xs, StartLe)[0] in xs
    ensures forall c :: c in xs ==> StrLe(Sort(xs, StartLe)[0].startTime, c.startTime)
  {
    var sorted := Sort(xs, StartLe);
    StartLePreorder();
    SortSorted(xs, StartLe);
    SortedHeadLeast(sorted, StartLe);
    assert sorted[0] in multiset(xs);
    forall c | c in xs ensures StrLe(sorted[0].startTime, c.startTime) {
      assert c in multiset(sorted);
      assert StartLe(sorted[0], c);
    }
  }

  /** The next class: the earliest entry later today, else the earliest entry
      of tomorrow (Sunday-first, Saturday wrapping to Sunday), else none. It never
      comes from any other day. */
  function NextClass(all: seq<TimetableEntry>, currentDay: string, currentTime: string): (r: Option<TimetableEntry>)
    ensures r.Some? ==> r.value in all
    ensures (exists c :: c in all && LaterToday(c, currentDay, currentTime)) ==>
      r.Some? && LaterToday(r.value, currentDay, currentTime) &&
      forall c :: c in all && LaterToday(c, currentDay, currentTime) ==> StrLe(r.value.startTime, c.startTime)
    ensures (forall c :: c in all ==> !LaterToday(c, currentDay, currentTime)) ==>
      if exists c :: c in all && c.dayOfWeek == Tomorrow(currentDay) then
        r.Some? && r.value.dayOfWeek == Tomorrow(currentDay) &&
        forall c :: c in all && c.dayOfWeek == Tomorrow(currentDay) ==> StrLe(r.value.startTime, c.startTime)
      else r.None?
    ensures r.Some? ==> r.value.dayOfWeek == currentDay || r.value.dayOfWeek == Tomorrow(currentDay)
  {
    var today := Filter(all, (c: TimetableEntry) => LaterToday(c, currentDay, currentTime));
    var first := EarliestStart(today);
    if first.Some? then first
    else EarliestStart(Filter(all, (c: TimetableEntry) => c.dayOfWeek == Tomorrow(currentDay)))
  }

  // -------------------------------------------------------------- sessions

  /** The duration a session contributes: `end - start` when both times are
      valid and the difference is positive, else 0. */
  function SessionMs(s: StudySession): (r: int)
    ensures r >= 0
    ensures r > 0 <==> s.start.Some? && s.end.Some? && s.end.value > s.start.value
    ensures r > 0 ==> r == s.end.value - s.start.value
  {
    if s.start.Some? && s.end.Some? && s.end.value - s.start.value > 0
    then s.end.value - s.start.value else 0
  }

  /** `sessions.reduce((sum, s) => sum + duration(s), 0)`. */
  function TotalStudyMs(sessions: seq<StudySession>): (r: int)
    ensures r >= 0
  {
    if sessions == [] then 0
    else TotalStudyMs(sessions[..|sessions| - 1]) + SessionMs(sessions[|sessions| - 1])
  }

  /** The study total is additive over any split of the sessions, so it does
      not depend on how the service pages them, and it bounds every session. */
  lemma {:induction false} TotalStudyMsAppend(a: seq<StudySession>, b: seq<StudySession>)
    ensures TotalStudyMs(a + b) == TotalStudyMs(a) + TotalStudyMs(b)
  {
    if b == [] {
      assert a + b == a;
    } else {
      assert (a + b)[..|a + b| - 1] == a + b[..|b| - 1];
      TotalStudyMsAppend(a, b[..|b| - 1]);
    }
  }

  lemma {:induction false} TotalStudyMsBoundsEach(sessions: seq<StudySession>, i: nat)
    requires i < |sessions|
    ensures SessionMs(sessions[i]) <= TotalStudyMs(sessions)
  {
    var n := |sessions|;
    assert sessions == sessions[..i + 1] + sessions[i + 1..];
    TotalStudyMsAppend(sessions[..i + 1], sessions[i + 1..]);
    assert sessions[..i + 1][..i] == sessions[..i];
  }

  /** `Math.round(totalStudyMs / 3 600 000)`. */
  function StudyHours(sessions: seq<StudySession>): (r: int)
    ensures r >= 0
    ensures MsPerHour * (2 * r - 1) <= 2 * TotalStudyMs(sessions) < MsPerHour * (2 * r + 1)
  {
    HoursFromMs(TotalStudyMs(sessions))
  }

  // ---------------------------------------------------------------- streak

  const StreakLookback: nat := 30

  /** `new Date(ts).toISOString().slice(0, 10)`: the UTC calendar day. */
  function DayKey(ts: int): int { ts / MsPerDay }

  /** The UTC days with at least one session start. */
  function StudyDays(sessions: seq<StudySession>): set<int> {
    set s | s in sessions && s.start.Some? :: DayKey(s.start.value)
  }

  /** Going back one day in the scan moves the day key back by one. */
  lemma DayKeyBack(now: int, i: nat)
    ensures DayKey(now - i * MsPerDay) == DayKey(now) - i
  {
    var q := now / MsPerDay;
    var m := now % MsPerDay;
    assert now - i * MsPerDay == (q - i) * MsPerDay + m;
  }

  /** The length of the run of study days starting `i` days back. */
  function StreakFrom(days: set<int>, now: int, i: nat): (r: nat)
    requires i <= StreakLookback
    ensures r <= StreakLookback - i
    decreases StreakLookback - i
  {
    if i == StreakLookback || DayKey(now - i * MsPerDay) !in days then 0
    else 1 + StreakFrom(days, now, i + 1)
  }

  /** The backward scan: count the days, from today back, that have a session,
      stopping at the first day without one or after 30 days. */
  method CurrentStreak(days: set<int>, now: int) returns (streak: nat)
    ensures streak <= StreakLookback
    ensures forall i :: 0 <= i < streak ==> DayKey(now - i * MsPerDay) in days
    ensures streak < StreakLookback ==> DayKey(now - streak * MsPerDay) !in days
    ensures streak == StreakFrom(days, now, 0)
  {
    streak := 0;
    for i := 0 to StreakLookback
      invariant streak == i
      invariant forall j :: 0 <= j < i ==> DayKey(now - j * MsPerDay) in days
      invariant StreakFrom(days, now, 0) == i + StreakFrom(days, now, i)
    {
      if DayKey(now - i * MsPerDay) in days {
        streak := streak + 1;
      } else {
        break;
      }
    }
  }

  /** Removing study days never lengthens the streak. */
  lemma {:induction false} StreakMonotone(fewer: set<int>, more: set<int>, now: int, i: nat)
    requires i <= StreakLookback && fewer <= more
    ensures StreakFrom(fewer, now, i) <= StreakFrom(more, now, i)
    decreases StreakLookback - i
  {
    if i < StreakLookback && DayKey(now - i * MsPerDay) in fewer {
      StreakMonotone(fewer, more, now, i + 1);
    }
  }

  /** No session today means no streak, whatever happened yesterday. */
  lemma NoStudyTodayNoStreak(days: set<int>, now: int)
    requires DayKey(now) !in days
    ensures StreakFrom(days, now, 0) == 0
  {
    assert now - 0 * MsPerDay == now;
  }

  /** Study on today and the two days before, and not the day before those:
      a streak of three; without yesterday it is one. */
  lemma ThreeDayStreak(now: int)
    ensures StreakFrom({DayKey(now), DayKey(now) - 1, DayKey(now) - 2}, now, 0) == 3
    ensures StreakFrom({DayKey(now), DayKey(now) - 2}, now, 0) == 1
  {
    DayKeyBack(now, 0);
    DayKeyBack(now, 1);
    DayKeyBack(now, 2);
    DayKeyBack(now, 3);
  }

  // ----------------------------------------------------- recent activities

  datatype ActivityTime =
    | DueOn(date: int)   // "Due " + the local date
    | Recently
    | At(ts: int)        // the local date and time
    | InvalidDate
    | Upcoming

  /** One line of the recent-activity list; `kind` is its `type`. */
  datatype Activity = Activity(action: string, time: ActivityTime, kind: string)

  /** `updatedAt || createdAt || dueDate`. */
  function RecencyKey(t: Task): Option<int> {
    if t.updatedAt.Some? then t.updatedAt else if t.createdAt.Some? then t.createdAt else t.due
  }

  /** Newest first; an undated item counts as older than every dated one. */
  predicate NewerLe(a: Option<int>, b: Option<int>) {
    match (a, b)
    case (Some(x), Some(y)) => x >= y
    case (Some(_), None) => true
    case (None, Some(_)) => false
    case (None, None) => true
  }

  predicate TaskNewerLe(a: Task, b: Task) { NewerLe(RecencyKey(a), RecencyKey(b)) }

  function SessionKey(s: StudySession): Option<int> { if s.end.Some? then s.end else s.start }

  predicate SessionNewerLe(a: StudySession, b: StudySession) { NewerLe(SessionKey(a), SessionKey(b)) }

  lemma NewerPreorders()
    ensures TotalPreorder(TaskNewerLe) && TotalPreorder(SessionNewerLe)
  {
  }

  function TaskActivity(t: Task): Activity {
    Activity(
      (if IsCompleted(t) then "Completed" else "Updated") + " " + (if t.title == "" then "Task" else t.title),
      if t.due.Some? then DueOn(t.due.value) else Recently,
      if IsCompleted(t) then "success" else "primary")
  }

  function SessionActivity(s: StudySession): Activity {
    Activity(
      "Study session - " + (if s.subject == "" then "General" else s.subject),
      if s.end.Some? then At(s.end.value) else if s.start.Some? then At(s.start.value) else InvalidDate,
      "info")
  }

  function ReminderActivity(r: Reminder): Activity {
    Activity("Reminder: " + r.title, if r.date.Some? then At(r.date.value) else Upcoming, "warning")
  }

  /** The tasks, newest first. */
  function NewestTasks(tasks: seq<Task>): (r: seq<Task>)
    ensures |r| == |tasks|
    ensures multiset(r) == multiset(tasks)
    ensures SortedBy(r, TaskNewerLe)
  {
    NewerPreorders();
    SortSorted(tasks, TaskNewerLe);
    Sort(tasks, TaskNewerLe)
  }

  function NewestSessions(sessions: seq<StudySession>): (r: seq<StudySession>)
    ensures |r| == |sessions|
    ensures multiset(r) == multiset(sessions)
    ensures SortedBy(r, SessionNewerLe)
  {
    NewerPreorders();
    SortSorted(sessions, SessionNewerLe);
    Sort(sessions, SessionNewerLe)
  }

  /** Tasks with equal recency keys keep their list order. */
  lemma NewestTasksStable(tasks: seq<Task>, k: Task)
    ensures Filter(NewestTasks(tasks), TiedWith(TaskNewerLe, k)) == Filter(tasks, TiedWith(TaskNewerLe, k))
  {
    NewerPreorders();
    SortStable(tasks, TaskNewerLe, k);
  }

  /** Sessions with equal recency keys keep their list order. */
  lemma NewestSessionsStable(sessions: seq<StudySession>, k: StudySession)
    ensures Filter(NewestSessions(sessions), TiedWith(SessionNewerLe, k)) == Filter(sessions, TiedWith(SessionNewerLe, k))
  {
    NewerPreorders();
    SortStable(sessions, SessionNewerLe, k);
  }

  /** The lines for the three newest tasks. */
  function TaskLines(tasks: seq<Task>): (r: seq<Activity>)
    ensures |r| == Min(3, |tasks|)
    ensures forall i :: 0 <= i < |r| ==> r[i] == TaskActivity(NewestTasks(tasks)[i])
    ensures forall i :: 0 <= i < |r| ==> r[i].kind in {"success", "primary"}
  {
    var newest := Take(NewestTasks(tasks), 3);
    seq(|newest|, i requires 0 <= i < |newest| => TaskActivity(newest[i]))
  }

  /** The lines for the two most recent sessions. */
  function SessionLines(sessions: seq<StudySession>): (r: seq<Activity>)
    ensures |r| == Min(2, |sessions|)
    ensures forall i :: 0 <= i < |r| ==> r[i] == SessionActivity(NewestSessions(sessions)[i]) && r[i].kind == "info"
  {
    var newest := Take(NewestSessions(sessions), 2);
    seq(|newest|, i requires 0 <= i < |newest| => SessionActivity(newest[i]))
  }

  /** The line for the first reminder, if there is one. */
  function ReminderLines(reminders: seq<Reminder>): (r: seq<Activity>)
    ensures |r| == Min(1, |reminders|)
    ensures forall i :: 0 <= i < |r| ==> r[i] == ReminderActivity(reminders[0]) && r[i].kind == "warning"
  {
    if reminders == [] then [] else [ReminderActivity(reminders[0])]
  }

  /** `a.concat(b, c).slice(0, n)`, position by position. */
  function ConcatTake<A>(a: seq<A>, b: seq<A>, c: seq<A>, n: nat): (r: seq<A>)
    ensures |r| == Min(n, |a| + |b| + |c|)
    ensures forall i :: 0 <= i < |r| && i < |a| ==> r[i] == a[i]
    ensures forall i :: |a| <= i < |r| && i < |a| + |b| ==> r[i] == b[i - |a|]
    ensures forall i :: |a| + |b| <= i < |r| ==> r[i] == c[i - |a| - |b|]
  {
    var all := a + b + c;
    if |all| <= n then all else all[..n]
  }

  /** At most five lines: up to three task lines from the newest tasks, then
      up to two session lines from the newest sessions, then at most one line
      for the first reminder, which the cut at five drops whenever three task
      lines and two session lines exist. */
  function RecentActivities(tasks: seq<Task>, sessions: seq<StudySession>, reminders: seq<Reminder>): (r: seq<Activity>)
    ensures |r| == Min(5, Min(3, |tasks|) + Min(2, |sessions|) + Min(1, |reminders|))
    ensures forall i :: 0 <= i < |TaskLines(tasks)| ==> r[i] == TaskLines(tasks)[i]
    ensures forall i :: |TaskLines(tasks)| <= i < |TaskLines(tasks)| + |SessionLines(sessions)| ==>
      r[i] == SessionLines(sessions)[i - |TaskLines(tasks)|]
    ensures forall i :: |TaskLines(tasks)| + |SessionLines(sessions)| <= i < |r| ==> r[i] == ReminderActivity(reminders[0])
  {
    ConcatTake(TaskLines(tasks), SessionLines(sessions), ReminderLines(reminders), 5)
  }

  // ------------------------------------------------------------- reminders

  predicate ReminderDateLe(a: Reminder, b: Reminder) {
    (if a.date.Some? then a.date.value else 0) <= (if b.date.Some? then b.date.value else 0)
  }

  lemma ReminderDateLePreorder()
    ensures TotalPreorder(ReminderDateLe)
  {
  }

  /** `reminders.filter((r) => r.reminderDate)`. */
  function DatedReminders(reminders: seq<Reminder>): seq<Reminder> {
    Filter(reminders, (x: Reminder) => x.date.Some?)
  }

  /** The dated reminder due first (the first of the earliest on a tie, as
      `NextReminderFirst` states). */
  function NextReminder(reminders: seq<Reminder>): (r: Option<Reminder>)
    ensures r.None? ==> forall x :: x in reminders ==> x.date.None?
    ensures r.Some? ==> r.value in reminders && r.value.date.Some?
    ensures r.Some? ==> forall x :: x in reminders && x.date.Some? ==> r.value.date.value <= x.date.value
  {
    var dated := DatedReminders(reminders);
    var sorted := Sort(dated, ReminderDateLe);
    assert forall x :: x in dated <==> x in sorted by {
      forall x ensures x in dated <==> x in sorted {
        assert x in sorted <==> x in multiset(sorted);
        assert x in dated <==> x in multiset(dated);
      }
    }
    if sorted == [] then None
    else
      ReminderDateLePreorder();
      SortSorted(dated, ReminderDateLe);
      SortedHeadLeast(sorted, ReminderDateLe);
      assert sorted[0] in dated;
      Some(sorted[0])
  }

  /** On a tie the reminder chosen is the first of the earliest in list
      order: every dated reminder before it is due strictly later. */
  lemma NextReminderFirst(reminders: seq<Reminder>)
    ensures var r := NextReminder(reminders);
      var dated := DatedReminders(reminders);
      r.Some? ==> (exists i :: 0 <= i < |dated| && dated[i] == r.value && EarlierAllLater(dated, i))
  {
    var dated := DatedReminders(reminders);
    if dated != [] {
      FirstEarliestDated(dated);
    }
  }

  /** Every reminder before position `i` is dated and due strictly later than
      the one at `i`. */
  predicate EarlierAllLater(dated: seq<Reminder>, i: nat)
    requires i < |dated|
  {
    dated[i].date.Some? && forall j :: 0 <= j < i ==> dated[j].date.Some? && dated[j].date.value > dated[i].date.value
  }

  lemma FirstEarliestDated(dated: seq<Reminder>)
    requires dated != [] && forall x :: x in dated ==> x.date.Some?
    ensures exists i :: 0 <= i < |dated| && dated[i] == Sort(dated, ReminderDateLe)[0] && EarlierAllLater(dated, i)
  {
    SortHeadFirstLeast(dated, ReminderDateLe);
    var i :| 0 <= i < |dated| && dated[i] == Sort(dated, ReminderDateLe)[0]
      && forall j :: 0 <= j < i ==> !ReminderDateLe(dated[j], dated[i]);
    forall j | 0 <= j < i ensures dated[j].date.Some? && dated[j].date.value > dated[i].date.value {
      assert dated[j] in dated && dated[i] in dated;
    }
    assert EarlierAllLater(dated, i);
  }

  /** The one-time warning for the nearest reminder: shown only when none was
      shown in this browser session, there is a reminder, and the nearest dated
      one is still in the future. */
  function ReminderToast(reminders: seq<Reminder>, now: int, alreadyShown: bool): (r: Option<string>)
    ensures r.Some? ==> !alreadyShown && NextReminder(reminders).Some? && NextReminder(reminders).value.date.value > now
    ensures !alreadyShown && NextReminder(reminders).Some? && NextReminder(reminders).value.date.value > now ==> r.Some?
    ensures r.Some? ==> var next := NextReminder(reminders).value;
      var hm := HoursMinutes(next.date.value - now);
      r.value == "Upcoming: " + next.title + " in " + IntToString(hm.0) + "h " + IntToString(hm.1) + "m"
  {
    if alreadyShown || |reminders| == 0 then None
    else
      var next := NextReminder(reminders);
      if next.None? then None
      else
        var diff := next.value.date.value - now;
        if diff <= 0 then None
        else
          var (h, m) := HoursMinutes(diff);
          Some("Upcoming: " + next.value.title + " in " + IntToString(h) + "h " + IntToString(m) + "m")
  }

  // ----------------------------------------------------------------- state

  datatype Stats = Stats(
    totalTasks: nat,
    completedTasks: nat,
    upcomingDeadlines: nat,
    studyHours: int,
    currentStreak: nat)

  /** `upcomingDeadlines`: every fetched reminder plus every due-soon task, with
      no attempt to pair a reminder with the task it may be about. */
  function UpcomingDeadlines(reminders: seq<Reminder>, tasks: seq<Task>, now: int): (r: nat)
    ensures r >= |reminders| + |UpcomingTasks(tasks, now)|
    ensures r - |reminders| == |Filter(tasks, t => IsDueSoon(t, now))|
  {
    |reminders| + |DueSoonTasks(tasks, now)|
  }

  /** `getCompletionPercentage`. */
  function CompletionPercentage(stats: Stats): (r: int)
    ensures stats.totalTasks == 0 ==> r == 0
    ensures stats.completedTasks <= stats.totalTasks ==> 0 <= r <= 100
  {
    Percentage(stats.completedTasks, stats.totalTasks)
  }

  /** `getPriorityColor`: the lower-cased priority picks the colour. */
  function PriorityColor(priority: string): (r: string)
    ensures r == "danger" <==> ToLower(priority) == "high"
    ensures r == "warning" <==> ToLower(priority) == "medium"
    ensures r == "success" <==> ToLower(priority) == "low"
    ensures r == "secondary" <==> ToLower(priority) !in {"high", "medium", "low"}
  {
    match ToLower(priority)
    case "high" => "danger"
    case "medium" => "warning"
    case "low" => "success"
    case _ => "secondary"
  }

  /** The colour is blind to ASCII case. */
  lemma PriorityColorIgnoresCase(priority: string)
    ensures PriorityColor(priority) == PriorityColor(ToLower(priority))
  {
    ToLowerIdempotent(priority);
  }

  /** Everything the dashboard shows for one fetched snapshot. */
  datatype View = View(
    stats: Stats,
    upcomingTasks: seq<Task>,
    upcomingReminders: seq<Reminder>,
    nextClass: Option<TimetableEntry>,
    recentActivities: seq<Activity>)

  /** The derived view of one snapshot; each part's meaning is its own
      function's contract, and the totals are consistent with each other. */
  function Snapshot(tasks: seq<Task>, reminders: seq<Reminder>, sessions: seq<StudySession>,
                    week: Week, now: int, currentDay: string, currentTime: string): (v: View)
    ensures v.stats.totalTasks == |tasks| && v.stats.completedTasks <= v.stats.totalTasks
    ensures v.stats.currentStreak <= StreakLookback
    ensures v.stats.upcomingDeadlines >= |v.upcomingTasks| + |v.upcomingReminders|
    ensures |v.upcomingTasks| <= 5 && |v.upcomingReminders| <= 3 && |v.recentActivities| <= 5
  {
    View(
      Stats(|tasks|, CompletedCount(tasks), UpcomingDeadlines(reminders, tasks, now),
            StudyHours(sessions), StreakFrom(StudyDays(sessions), now, 0)),
      UpcomingTasks(tasks, now),
      Take(reminders, 3),
      NextClass(FlattenWeek(week), currentDay, currentTime),
      RecentActivities(tasks, sessions, reminders))
  }

  /** The dashboard's component state. */
  class Dashboard {
    var stats: Stats
    var upcomingTasks: seq<Task>
    var upcomingReminders: seq<Reminder>
    var nextClass: Option<TimetableEntry>
    var recentActivities: seq<Activity>
    /** The browser-session flag that the reminder warning was shown. */
    var reminderToastShown: bool

    constructor (toastShownBefore: bool)
      ensures stats == Stats(0, 0, 0, 0, 0)
      ensures upcomingTasks == [] && upcomingReminders == [] && nextClass.None? && recentActivities == []
      ensures reminderToastShown == toastShownBefore
    {
      stats := Stats(0, 0, 0, 0, 0);
      upcomingTasks, upcomingReminders, nextClass, recentActivities := [], [], None, [];
      reminderToastShown := toastShownBefore;
    }

    /** `loadDashboard` for one fetched snapshot. When a fetch fails nothing
        is replaced; otherwise every derived field is written, the streak by
        the backward scan, and the reminder warning is raised at most once. */
    method LoadDashboard(fetched: bool, tasks: seq<Task>, reminders: seq<Reminder>,
                         sessions: seq<StudySession>, week: Week,
                         now: int, currentDay: string, currentTime: string)
      returns (toast: Option<string>)
      modifies this
      ensures !fetched ==> toast.None? && stats == old(stats) && upcomingTasks == old(upcomingTasks)
      ensures !fetched ==> upcomingReminders == old(upcomingReminders) && nextClass == old(nextClass)
      ensures !fetched ==> recentActivities == old(recentActivities) && reminderToastShown == old(reminderToastShown)
      ensures fetched ==> var v := Snapshot(tasks, reminders, sessions, week, now, currentDay, currentTime);
        stats == v.stats && upcomingTasks == v.upcomingTasks && upcomingReminders == v.upcomingReminders
        && nextClass == v.nextClass && recentActivities == v.recentActivities
      ensures fetched ==> toast == ReminderToast(reminders, now, old(reminderToastShown))
      ensures reminderToastShown == (old(reminderToastShown) || toast.Some?)
    {
      toast := None;
      if fetched {
        toast := ReminderToast(reminders, now, reminderToastShown);
        var streak := CurrentStreak(StudyDays(sessions), now);
        var v := Snapshot(tasks, reminders, sessions, week, now, currentDay, currentTime);
        Show(v.(stats := v.stats.(currentStreak := streak)), reminderToastShown || toast.Some?);
      }
    }

    /** The state setters of one successful load, applied together. */
    method Show(v: View, toastShown: bool)
      modifies this
      ensures stats == v.stats && upcomingTasks == v.upcomingTasks && upcomingReminders == v.upcomingReminders
      ensures nextClass == v.nextClass && recentActivities == v.recentActivities
      ensures reminderToastShown == toastShown
    {
      stats, upcomingTasks, upcomingReminders := v.stats, v.upcomingTasks, v.upcomingReminders;
      nextClass, recentActivities, reminderToastShown := v.nextClass, v.recentActivities, toastShown;
    }
  }
}
