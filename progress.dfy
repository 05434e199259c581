/** The progress overview (Components/Features/progressTracker.jsx): the task
    statistics memo, the per-subject grouping that fills an accumulator object
    in place, the ranked subject list and the weekly study-hours figure. */
module ProgressTracker {
  import opened Optional
  import opened Numeric
  import opened Sorting
  import opened Records

  // ------------------------------------------------------------ task counts

  /** The overdue tasks: dated, due before now, not completed. */
  function OverdueTasks(tasks: seq<Task>, now: int): (r: seq<Task>)
    ensures forall t :: t in r <==> t in tasks && t.due.Some? && t.due.value < now && !IsCompleted(t)
  {
    Filter(tasks, (t: Task) => IsOverdue(t, now))
  }

  /** The upcoming tasks: dated, due in [now, now + 7 days], not completed. */
  function UpcomingTasks(tasks: seq<Task>, now: int): (r: seq<Task>)
    ensures forall t :: t in r <==> t in tasks && t.due.Some? && now <= t.due.value <= now + 7 * MsPerDay && !IsCompleted(t)
  {
    Filter(tasks, (t: Task) => IsDueSoon(t, now))
  }

  /** No task is both overdue and upcoming. */
  lemma OverdueUpcomingDisjoint(t: Task, now: int)
    ensures !(IsOverdue(t, now) && IsDueSoon(t, now))
  {
  }

  /** Overdue and upcoming are disjoint kinds of pending task, so together
      they never outnumber the pending tasks. */
  lemma {:induction false} OverduePlusUpcomingWithinPending(tasks: seq<Task>, now: int)
    ensures |OverdueTasks(tasks, now)| + |UpcomingTasks(tasks, now)| <= |PendingTasks(tasks)|
  {
    if tasks != [] {
      OverduePlusUpcomingWithinPending(tasks[1..], now);
      assert |OverdueTasks(tasks, now)| == (if IsOverdue(tasks[0], now) then 1 else 0) + |OverdueTasks(tasks[1..], now)|;
      assert |UpcomingTasks(tasks, now)| == (if IsDueSoon(tasks[0], now) then 1 else 0) + |UpcomingTasks(tasks[1..], now)|;
      assert |PendingTasks(tasks)| == (if IsPending(tasks[0]) then 1 else 0) + |PendingTasks(tasks[1..])|;
    }
  }

  // ------------------------------------------------------ subject grouping

  /** One group of the `bySubject` accumulator. */
  datatype Tally = Tally(total: nat, completed: nat)

  /** The number of tasks filed under subject label `k`. */
  function CountLabel(tasks: seq<Task>, k: string): nat {
    if tasks == [] then 0
    else CountLabel(tasks[..|tasks| - 1], k) + (if SubjectLabel(tasks[|tasks| - 1]) == k then 1 else 0)
  }

  /** The number of completed tasks filed under `k`; never more than the group. */
  function CountLabelCompleted(tasks: seq<Task>, k: string): (r: nat)
    ensures r <= CountLabel(tasks, k)
  {
    if tasks == [] then 0
    else
      var last := tasks[|tasks| - 1];
      CountLabelCompleted(tasks[..|tasks| - 1], k) + (if SubjectLabel(last) == k && IsCompleted(last) then 1 else 0)
  }

  /** The group keys in the order the accumulator object first meets them. */
  function SubjectKeys(tasks: seq<Task>): (r: seq<string>)
    ensures forall i, j :: 0 <= i < j < |r| ==> r[i] != r[j]
    ensures forall i :: 0 <= i < |tasks| ==> SubjectLabel(tasks[i]) in r
    ensures forall k :: k in r ==> CountLabel(tasks, k) > 0
  {
    if tasks == [] then []
    else
      var prefix := tasks[..|tasks| - 1];
      var keys := SubjectKeys(prefix);
      var lbl := SubjectLabel(tasks[|tasks| - 1]);
      assert forall i :: 0 <= i < |prefix| ==> tasks[i] == prefix[i];
      if lbl in keys then keys else keys + [lbl]
  }

  /** A label no task carries has an empty group. */
  lemma {:induction false} CountLabelAbsent(tasks: seq<Task>, k: string)
    requires forall i :: 0 <= i < |tasks| ==> SubjectLabel(tasks[i]) != k
    ensures CountLabel(tasks, k) == 0
  {
    if tasks != [] {
      var prefix := tasks[..|tasks| - 1];
      assert forall i :: 0 <= i < |prefix| ==> prefix[i] == tasks[i];
      CountLabelAbsent(prefix, k);
    }
  }

  /** The sum of the group totals over a list of keys. */
  function SumCounts(keys: seq<string>, tasks: seq<Task>): nat {
    if keys == [] then 0 else CountLabel(tasks, keys[0]) + SumCounts(keys[1..], tasks)
  }

  lemma {:induction false} SumCountsSnocTask(keys: seq<string>, tasks: seq<Task>, t: Task)
    requires forall i, j :: 0 <= i < j < |keys| ==> keys[i] != keys[j]
    ensures SumCounts(keys, tasks + [t]) == SumCounts(keys, tasks) + (if SubjectLabel(t) in keys then 1 else 0)
  {
    assert (tasks + [t])[..|tasks|] == tasks;
    if keys != [] {
      SumCountsSnocTask(keys[1..], tasks, t);
      assert SubjectLabel(t) in keys <==> SubjectLabel(t) == keys[0] || SubjectLabel(t) in keys[1..];
    }
  }

  lemma {:induction false} SumCountsSnocKey(keys: seq<string>, k: string, tasks: seq<Task>)
    ensures SumCounts(keys + [k], tasks) == SumCounts(keys, tasks) + CountLabel(tasks, k)
  {
    if keys == [] {
      assert [k][1..] == [];
    } else {
      assert (keys + [k])[1..] == keys[1..] + [k];
      SumCountsSnocKey(keys[1..], k, tasks);
    }
  }

  /** Every task lands in exactly one group, so the group totals add up to the
      number of tasks. */
  lemma {:induction false} GroupTotalsSum(tasks: seq<Task>)
    ensures SumCounts(SubjectKeys(tasks), tasks) == |tasks|
  {
    if tasks != [] {
      var prefix := tasks[..|tasks| - 1];
      var t := tasks[|tasks| - 1];
      var keys := SubjectKeys(prefix);
      assert tasks == prefix + [t];
      GroupTotalsSum(prefix);
      SumCountsSnocTask(keys, prefix, t);
      if SubjectLabel(t) !in keys {
        SumCountsSnocKey(keys, SubjectLabel(t), tasks);
        CountLabelAbsent(prefix, SubjectLabel(t));
        assert CountLabel(tasks, SubjectLabel(t)) == 1;
      }
    }
  }

  /** Appending a task grows exactly its own group, by one. */
  lemma CountLabelSnoc(tasks: seq<Task>, t: Task, k: string)
    ensures CountLabel(tasks + [t], k) == CountLabel(tasks, k) + (if SubjectLabel(t) == k then 1 else 0)
    ensures CountLabelCompleted(tasks + [t], k)
         == CountLabelCompleted(tasks, k) + (if SubjectLabel(t) == k && IsCompleted(t) then 1 else 0)
    ensures SubjectKeys(tasks + [t])
         == if SubjectLabel(t) in SubjectKeys(tasks) then SubjectKeys(tasks) else SubjectKeys(tasks) + [SubjectLabel(t)]
  {
    assert (tasks + [t])[..|tasks|] == tasks;
  }

  /** `tasks.reduce(...)` filling `bySubject`: the keys in insertion order and
      the accumulator object they index. */
  method GroupBySubject(tasks: seq<Task>) returns (keys: seq<string>, acc: map<string, Tally>)
    ensures keys == SubjectKeys(tasks)
    ensures forall k :: k in acc <==> k in keys
    ensures forall k :: k in acc ==> acc[k] == Tally(CountLabel(tasks, k), CountLabelCompleted(tasks, k))
  {
    keys, acc := [], map[];
    for i := 0 to |tasks|
      invariant keys == SubjectKeys(tasks[..i])
      invariant forall k :: k in acc <==> k in keys
      invariant forall k :: k in acc ==> acc[k] == Tally(CountLabel(tasks[..i], k), CountLabelCompleted(tasks[..i], k))
    {
      var t := tasks[i];
      var s := SubjectLabel(t);
      var done := IsCompleted(t);
      ghost var before := tasks[..i];
      ghost var oldAcc := acc;
      assert tasks[..i + 1] == before + [t];
      CountLabelSnoc(before, t, s);
      var cur := if s in acc then acc[s] else Tally(0, 0);
      if s !in acc {
        keys := keys + [s];
      }
      acc := acc[s := Tally(cur.total + 1, cur.completed + (if done then 1 else 0))];
      forall k | k in acc
        ensures acc[k] == Tally(CountLabel(before + [t], k), CountLabelCompleted(before + [t], k))
      {
        CountLabelSnoc(before, t, k);
        if k != s {
          assert acc[k] == oldAcc[k];
        } else if s !in oldAcc {
          CountLabelAbsent(before, s);
          assert CountLabelCompleted(before, s) == 0;
        }
      }
    }
    assert tasks[..|tasks|] == tasks;
  }

  // -------------------------------------------------------- ranked subjects

  /** One row of the subject ranking. */
  datatype SubjectProgress = SubjectProgress(name: string, pct: int, total: nat, completed: nat)

  function Row(name: string, v: Tally): (r: SubjectProgress)
    ensures r.name == name && r.total == v.total && r.completed == v.completed
    ensures r.pct == Percentage(v.completed, v.total)
  {
    SubjectProgress(name, Percentage(v.completed, v.total), v.total, v.completed)
  }

  /** `Object.entries(bySubject).map(...)`, specified on the tasks directly. */
  function SubjectRows(tasks: seq<Task>): (r: seq<SubjectProgress>)
    ensures |r| == |SubjectKeys(tasks)|
    ensures forall i :: 0 <= i < |r| ==> r[i] == Row(SubjectKeys(tasks)[i],
      Tally(CountLabel(tasks, SubjectKeys(tasks)[i]), CountLabelCompleted(tasks, SubjectKeys(tasks)[i])))
  {
    var keys := SubjectKeys(tasks);
    seq(|keys|, i requires 0 <= i < |keys| => Row(keys[i], Tally(CountLabel(tasks, keys[i]), CountLabelCompleted(tasks, keys[i]))))
  }

  /** Every row is a non-empty group whose percentage lies in [0, 100]. */
  lemma SubjectRowsBounded(tasks: seq<Task>)
    ensures forall x :: x in SubjectRows(tasks) ==> 0 < x.total && x.completed <= x.total && 0 <= x.pct <= 100
  {
    var rows := SubjectRows(tasks);
    forall x | x in rows ensures 0 < x.total && x.completed <= x.total && 0 <= x.pct <= 100 {
      var i :| 0 <= i < |rows| && rows[i] == x;
      assert SubjectKeys(tasks)[i] in SubjectKeys(tasks);
    }
  }

  /** The comparator `(a, b) => b.pct - a.pct`: higher percentage first. */
  predicate PctDescLe(a: SubjectProgress, b: SubjectProgress) {
    b.pct - a.pct <= 0
  }

  lemma PctDescLePreorder()
    ensures TotalPreorder(PctDescLe)
  {
  }

  /** `.sort(...).slice(0, 4)`: the four best rows, best first; no row left
      out has a higher percentage than a row kept. */
  function TopSubjects(rows: seq<SubjectProgress>): (r: seq<SubjectProgress>)
    ensures |r| == Min(4, |rows|)
    ensures multiset(r) <= multiset(rows)
    ensures forall x :: x in r ==> x in rows
    ensures forall i, j :: 0 <= i < j < |r| ==> r[i].pct >= r[j].pct
    ensures forall x, y :: x in r && y in multiset(rows) - multiset(r) ==> x.pct >= y.pct
  {
    var sorted := Sort(rows, PctDescLe);
    var r := Take(sorted, 4);
    PctDescLePreorder();
    SortedTake(rows, PctDescLe, 4);
    forall i, j | 0 <= i < j < |r| ensures r[i].pct >= r[j].pct {
      assert PctDescLe(r[i], r[j]);
    }
    forall x, y | x in r && y in multiset(rows) - multiset(r) ensures x.pct >= y.pct {
      assert PctDescLe(x, y);
    }
    r
  }

  /** Rows with equal percentages keep the order the grouping gave them. */
  lemma TopSubjectsStable(rows: seq<SubjectProgress>, k: SubjectProgress)
    ensures Filter(TopSubjects(rows), TiedWith(PctDescLe, k)) <= Filter(rows, TiedWith(PctDescLe, k))
  {
    PctDescLePreorder();
    SortedTakeStable(rows, PctDescLe, 4, k);
  }

  // ---------------------------------------------------------- upcoming list

  /** `tasks.filter((t) => t.dueDate)`: the tasks that have a due date. */
  function DatedTasks(tasks: seq<Task>): (r: seq<Task>)
    ensures forall t :: t in r <==> t in tasks && t.due.Some?
    ensures |r| <= |tasks|
  {
    Filter(tasks, (t: Task) => t.due.Some?)
  }

  /** `tasks.filter(t => t.dueDate).sort(byDue).slice(0, 5)`: up to five
      dated tasks, earliest first, completed or past ones included; no dated
      task left out is due before a task kept. */
  function UpcomingList(tasks: seq<Task>): (r: seq<Task>)
    ensures |r| == Min(5, |DatedTasks(tasks)|)
    ensures multiset(r) <= multiset(DatedTasks(tasks))
    ensures forall t :: t in r ==> t in tasks && t.due.Some?
    ensures forall i, j :: 0 <= i < j < |r| ==> r[i].due.value <= r[j].due.value
    ensures forall x, y :: x in r && y in multiset(DatedTasks(tasks)) - multiset(r) ==>
      y.due.Some? && x.due.value <= y.due.value
  {
    var dated := DatedTasks(tasks);
    EarliestDated(dated);
    Take(Sort(dated, DueLe), 5)
  }

  /** The first five of the dated tasks sorted by due date, and what their
      order means. */
  lemma EarliestDated(dated: seq<Task>)
    requires forall t :: t in dated ==> t.due.Some?
    ensures var r := Take(Sort(dated, DueLe), 5);
      && multiset(r) <= multiset(dated) && (forall x :: x in r ==> x in dated)
      && (forall i, j :: 0 <= i < j < |r| ==> r[i].due.value <= r[j].due.value)
      && forall x, y :: x in r && y in multiset(dated) - multiset(r) ==> y.due.Some? && x.due.value <= y.due.value
  {
    DueLePreorder();
    SortedTake(dated, DueLe, 5);
    DueOrder(dated, Take(Sort(dated, DueLe), 5));
  }

  /** What `DueLe` order means for a prefix of dated tasks taken in order. */
  lemma DueOrder(dated: seq<Task>, r: seq<Task>)
    requires forall t :: t in dated ==> t.due.Some?
    requires SortedBy(r, DueLe) && forall x :: x in r ==> x in dated
    requires forall x, y :: x in r && y in multiset(dated) - multiset(r) ==> DueLe(x, y)
    ensures forall i, j :: 0 <= i < j < |r| ==> r[i].due.value <= r[j].due.value
    ensures forall x, y :: x in r && y in multiset(dated) - multiset(r) ==> y.due.Some? && x.due.value <= y.due.value
  {
    forall i, j | 0 <= i < j < |r| ensures r[i].due.value <= r[j].due.value {
      assert DueLe(r[i], r[j]);
      assert r[i] in dated && r[j] in dated;
    }
    forall x, y | x in r && y in multiset(dated) - multiset(r) ensures y.due.Some? && x.due.value <= y.due.value {
      assert DueLe(x, y);
      assert y in multiset(dated);
    }
  }

  /** Tasks due at the same moment keep their order in the fetched list. */
  lemma UpcomingListStable(tasks: seq<Task>, k: Task)
    ensures Filter(UpcomingList(tasks), TiedWith(DueLe, k)) <= Filter(DatedTasks(tasks), TiedWith(DueLe, k))
  {
    DueLePreorder();
    SortedTakeStable(DatedTasks(tasks), DueLe, 5, k);
  }

  /** Unlike the upcoming count, the list keeps a completed task from the past. */
  lemma UpcomingListKeepsCompletedPast(t: Task, now: int)
    requires t.due == Some(now - 1) && t.isCompleted
    ensures UpcomingList([t]) == [t]
    ensures UpcomingTasks([t], now) == [] && OverdueTasks([t], now) == []
  {
    assert DatedTasks([t]) == [t];
    assert Sort([t], DueLe) == [t];
    assert UpcomingTasks([t], now) == [] by {
      assert t !in UpcomingTasks([t], now);
    }
    assert OverdueTasks([t], now) == [] by {
      assert t !in OverdueTasks([t], now);
    }
  }

  // ------------------------------------------------------------------ stats

  datatype ProgressStats = ProgressStats(
    total: nat,
    completed: nat,
    pending: nat,
    overdue: nat,
    upcoming: nat,
    completion: int,
    subjects: seq<SubjectProgress>,
    upcomingList: seq<Task>)

  /** The `stats` memo, as a function of the tasks and the clock. */
  function StatsOf(tasks: seq<Task>, now: int): ProgressStats {
    ProgressStats(
      |tasks|,
      |CompletedTasks(tasks)|,
      |PendingTasks(tasks)|,
      |OverdueTasks(tasks, now)|,
      |UpcomingTasks(tasks, now)|,
      Percentage(|CompletedTasks(tasks)|, |tasks|),
      TopSubjects(SubjectRows(tasks)),
      UpcomingList(tasks))
  }

  /** What the overview promises about its figures. */
  lemma StatsConsistent(tasks: seq<Task>, now: int)
    ensures var s := StatsOf(tasks, now);
      && s.completed + s.pending == s.total
      && s.overdue + s.upcoming <= s.pending
      && (s.total == 0 ==> s.completion == 0)
      && 0 <= s.completion <= 100
      && |s.subjects| <= 4 && |s.upcomingList| <= 5
      && (forall x :: x in s.subjects ==> 0 < x.total && x.completed <= x.total && 0 <= x.pct <= 100)
  {
    CompletedPlusPending(tasks);
    OverduePlusUpcomingWithinPending(tasks, now);
    SubjectRowsBounded(tasks);
  }

  /** The memo as the component computes it: the counts, then the grouping
      loop over a mutable accumulator, then the ranking. */
  method ComputeStats(tasks: seq<Task>, now: int) returns (s: ProgressStats)
    ensures s == StatsOf(tasks, now)
  {
    var keys, acc := GroupBySubject(tasks);
    var rows := seq(|keys|, i requires 0 <= i < |keys| => Row(keys[i], acc[keys[i]]));
    assert rows == SubjectRows(tasks);
    var completed := |CompletedTasks(tasks)|;
    s := ProgressStats(
      |tasks|, completed, |PendingTasks(tasks)|,
      |OverdueTasks(tasks, now)|, |UpcomingTasks(tasks, now)|,
      Percentage(completed, |tasks|),
      TopSubjects(rows), UpcomingList(tasks));
  }

  /** `Math.round((totalDurationMs || 0) / 3 600 000)`: a missing total is 0. */
  function WeeklyStudyHours(totalDurationMs: Option<int>): (r: int)
    ensures totalDurationMs.None? ==> r == 0
    ensures totalDurationMs.Some? ==> MsPerHour * (2 * r - 1) <= 2 * totalDurationMs.value < MsPerHour * (2 * r + 1)
  {
    HoursFromMs(if totalDurationMs.Some? then totalDurationMs.value else 0)
  }

  /** The page state filled by `load`. */
  class Progress {
    var tasks: seq<Task>
    var weeklyStudyHours: int
    var error: string
    var loading: bool

    constructor ()
      ensures tasks == [] && weeklyStudyHours == 0 && error == "" && loading
    {
      tasks, weeklyStudyHours, error, loading := [], 0, "", true;
    }

    /** One `load`: the task fetch decides the error; the weekly figure is
        optional and a failure there leaves the old figure. */
    method Load(fetchedTasks: Option<seq<Task>>, failureMessage: string, weeklyMs: Option<Option<int>>)
      modifies this
      ensures !loading
      ensures fetchedTasks.Some? ==> tasks == fetchedTasks.value && error == ""
      ensures fetchedTasks.Some? && weeklyMs.Some? ==> weeklyStudyHours == WeeklyStudyHours(weeklyMs.value)
      ensures fetchedTasks.Some? && weeklyMs.None? ==> weeklyStudyHours == old(weeklyStudyHours)
      ensures fetchedTasks.None? ==> tasks == old(tasks) && weeklyStudyHours == old(weeklyStudyHours)
      ensures fetchedTasks.None? ==> error == (if failureMessage == "" then "Failed to load progress" else failureMessage)
    {
      error := "";
      if fetchedTasks.Some? {
        tasks := fetchedTasks.value;
        if weeklyMs.Some? {
          weeklyStudyHours := WeeklyStudyHours(weeklyMs.value);
        }
      } else {
        error := if failureMessage == "" then "Failed to load progress" else failureMessage;
      }
      loading := false;
    }
  }
}
