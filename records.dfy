/** The records the REST service hands the pages, and the task classification
    that several pages repeat inline. A string field that is absent or empty
    (both falsy in JavaScript) is "", an absent or unparseable date is None, and
    every date is a timestamp in integer milliseconds. */
module Records {
  import opened Optional
  import opened Text
  import opened Numeric
  import opened Sorting

  datatype Task = Task(
    id: string,
    title: string,
    description: string,
    subject: string,
    priority: string,
    status: string,
    isCompleted: bool,
    due: Option<int>,
    updatedAt: Option<int>,
    createdAt: Option<int>)

  /** A study session; `end` is None while the session is still running. */
  datatype StudySession = StudySession(
    id: string,
    subject: string,
    start: Option<int>,
    end: Option<int>,
    duration: Option<int>,
    notes: string)

  datatype Reminder = Reminder(id: string, title: string, date: Option<int>)

  /** A timetable class; `kind` is the entry's `type` (Lecture, Lab, ...). */
  datatype TimetableEntry = TimetableEntry(
    dayOfWeek: string,
    startTime: string,
    endTime: string,
    subject: string,
    kind: string,
    room: string)

  /** The week timetable as the service returns it: day name to that day's
      entries, in the object's key order. */
  type Week = seq<(string, seq<TimetableEntry>)>

  /** How a service call ended: a resolved response whose body holds what the
      handler reads (the list in `res?.data?.X || []`, or `success` on the task
      page), a resolved response whose body lacks it, or a thrown error
      carrying its message. */
  datatype Response<T> = Success(value: T) | Unsuccessful | Thrown(message: string)

  /** `error.message || fallback`. */
  function ErrorText(message: string, fallback: string): (r: string)
    ensures fallback != "" ==> r != ""
    ensures message != "" ==> r == message
  {
    if message == "" then fallback else message
  }

  /** `(t.status || "").toLowerCase() === "completed" || t.isCompleted`. */
  predicate IsCompleted(t: Task) {
    ToLower(t.status) == "completed" || t.isCompleted
  }

  predicate IsPending(t: Task) {
    !IsCompleted(t)
  }

  /** Either signal alone marks a task completed: the flag wins over any status,
      and the status is compared without regard to ASCII case. */
  lemma CompletionSignals(t: Task)
    ensures t.isCompleted ==> IsCompleted(t)
    ensures t.status in {"completed", "Completed", "COMPLETED"} ==> IsCompleted(t)
    ensures !t.isCompleted && t.status in {"", "Pending", "In Progress", "Overdue"} ==> !IsCompleted(t)
  {
    if t.status in {"Completed", "COMPLETED"} {
      assert ToLower(t.status) == "completed";
    }
    if t.status == "Pending" { assert ToLower(t.status)[0] == 'p'; }
    if t.status == "In Progress" { assert |ToLower(t.status)| == 11; }
    if t.status == "Overdue" { assert ToLower(t.status)[0] == 'o'; }
  }

  /** `t.subject || "General"`. */
  function SubjectLabel(t: Task): (r: string)
    ensures r != ""
    ensures t.subject != "" ==> r == t.subject
  {
    if t.subject == "" then "General" else t.subject
  }

  /** The seven-day window `now <= due <= now + 7 days` for a task not yet completed. */
  predicate IsDueSoon(t: Task, now: int) {
    t.due.Some? && now <= t.due.value <= now + 7 * MsPerDay && !IsCompleted(t)
  }

  predicate IsOverdue(t: Task, now: int) {
    t.due.Some? && t.due.value < now && !IsCompleted(t)
  }

  function CompletedTasks(tasks: seq<Task>): seq<Task> { Filter(tasks, IsCompleted) }
  function PendingTasks(tasks: seq<Task>): seq<Task> { Filter(tasks, IsPending) }

  /** Completed and pending partition the tasks. */
  lemma {:induction false} CompletedPlusPending(tasks: seq<Task>)
    ensures |CompletedTasks(tasks)| + |PendingTasks(tasks)| == |tasks|
  {
    if tasks != [] { CompletedPlusPending(tasks[1..]); }
  }

  /** The comparator `new Date(a.dueDate) - new Date(b.dueDate)`, on dated tasks. */
  predicate DueLe(a: Task, b: Task) {
    DueKey(a) <= DueKey(b)
  }

  function DueKey(t: Task): int { if t.due.Some? then t.due.value else 0 }

  lemma DueLePreorder()
    ensures TotalPreorder(DueLe)
  {
  }

  /** `Object.entries(week).flatMap(([day, xs]) => (xs || []).map(e => ({...e, dayOfWeek: e.dayOfWeek || day})))`. */
  function FlattenWeek(week: Week): (r: seq<TimetableEntry>)
    ensures |r| == WeekSize(week)
  {
    if week == [] then []
    else StampDay(week[0].0, week[0].1) + FlattenWeek(week[1..])
  }

  function WeekSize(week: Week): nat {
    if week == [] then 0 else |week[0].1| + WeekSize(week[1..])
  }

  function StampDay(day: string, xs: seq<TimetableEntry>): (r: seq<TimetableEntry>)
    ensures |r| == |xs|
    ensures forall i :: 0 <= i < |xs| ==> r[i] == xs[i].(dayOfWeek := DefaultDay(xs[i], day))
  {
    seq(|xs|, i requires 0 <= i < |xs| => xs[i].(dayOfWeek := DefaultDay(xs[i], day)))
  }

  function DefaultDay(e: TimetableEntry, day: string): string {
    if e.dayOfWeek == "" then day else e.dayOfWeek
  }

  /** Flattening lists every entry of every day once, in key order then entry
      order, and stamps a missing day name with the key it was filed under. */
  lemma {:induction false} FlattenWeekAt(week: Week, d: nat, i: nat)
    requires d < |week| && i < |week[d].1|
    ensures WeekSize(week[..d]) + i < |FlattenWeek(week)|
    ensures FlattenWeek(week)[WeekSize(week[..d]) + i]
         == week[d].1[i].(dayOfWeek := DefaultDay(week[d].1[i], week[d].0))
  {
    if d == 0 {
      assert week[..0] == [];
    } else {
      FlattenWeekAt(week[1..], d - 1, i);
      assert week[1..][..d - 1] == week[..d][1..];
      assert WeekSize(week[..d]) == |week[0].1| + WeekSize(week[..d][1..]);
    }
  }
}
