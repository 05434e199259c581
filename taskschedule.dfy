/** The calendar schedule (Components/Pages/TaskSchedule/TaskSchedule.jsx):
    tasks normalised for the calendar, the tasks of the selected day, the
    status flip and date selection. The local calendar day of a timestamp is
    the UTC day after shifting by the zone offset. */
module TaskSchedule {
  import opened Optional
  import opened Numeric
  import opened Sorting
  import opened Records

  /** A task as the calendar holds it. */
  datatype ScheduledTask = ScheduledTask(id: string, title: string, description: string, date: Option<int>, status: string)

  /** The status a task shows: its own, else one derived from the flag. */
  function NormalStatus(t: Task): (r: string)
    ensures t.status != "" ==> r == t.status
    ensures t.status == "" && t.isCompleted ==> r == "Completed"
    ensures t.status == "" && !t.isCompleted ==> r == "Pending"
    ensures r != ""
  {
    if t.status != "" then t.status else if t.isCompleted then "Completed" else "Pending"
  }

  /** The normalisation in `loadTasks`. */
  function Normalise(t: Task): (r: ScheduledTask)
    ensures r.id == t.id && r.title == t.title && r.description == t.description
    ensures r.date == t.due && r.status == NormalStatus(t)
  {
    ScheduledTask(t.id, t.title, t.description, t.due, NormalStatus(t))
  }

  function NormaliseAll(tasks: seq<Task>): (r: seq<ScheduledTask>)
    ensures |r| == |tasks| && forall i :: 0 <= i < |tasks| ==> r[i] == Normalise(tasks[i])
  {
    seq(|tasks|, i requires 0 <= i < |tasks| => Normalise(tasks[i]))
  }

  /** `toDateString` equality: the same local calendar day. */
  predicate SameLocalDay(a: int, b: int, zoneOffsetMs: int) {
    (a + zoneOffsetMs) / MsPerDay == (b + zoneOffsetMs) / MsPerDay
  }

  predicate OnDay(t: ScheduledTask, selected: int, zoneOffsetMs: int) {
    t.date.Some? && SameLocalDay(t.date.value, selected, zoneOffsetMs)
  }

  /** `filteredTasks`: the dated tasks on the selected day, in list order. */
  function FilteredTasks(tasks: seq<ScheduledTask>, selected: int, zoneOffsetMs: int): (r: seq<ScheduledTask>)
    ensures forall t :: t in r <==> t in tasks && t.date.Some? && SameLocalDay(t.date.value, selected, zoneOffsetMs)
    ensures |r| <= |tasks|
  {
    Filter(tasks, (t: ScheduledTask) => OnDay(t, selected, zoneOffsetMs))
  }

  /** Two moments in one local day select the same tasks. */
  lemma FilteredTasksByDay(tasks: seq<ScheduledTask>, a: int, b: int, zoneOffsetMs: int)
    requires SameLocalDay(a, b, zoneOffsetMs)
    ensures forall t :: t in FilteredTasks(tasks, a, zoneOffsetMs) <==> t in FilteredTasks(tasks, b, zoneOffsetMs)
  {
  }

  /** `task.status === "Completed" ? "Pending" : "Completed"`. */
  function NextStatus(status: string): (r: string)
    ensures r in {"Completed", "Pending"}
    ensures r == "Pending" <==> status == "Completed"
  {
    if status == "Completed" then "Pending" else "Completed"
  }

  /** The flip undoes itself on Completed and Pending, and only there: any other
      status comes back as Pending after two flips. */
  lemma NextStatusInvolution(status: string)
    ensures NextStatus(NextStatus(status)) == status <==> status in {"Completed", "Pending"}
    ensures status !in {"Completed", "Pending"} ==> NextStatus(NextStatus(status)) == "Pending"
  {
  }

  /** `prev.map(t => t.id === id ? {...t, status} : t)`. */
  function SetStatus(tasks: seq<ScheduledTask>, id: string, status: string): (r: seq<ScheduledTask>)
    ensures |r| == |tasks|
    ensures forall i :: 0 <= i < |tasks| ==> r[i] == tasks[i].(status := r[i].status)
    ensures forall i :: 0 <= i < |tasks| ==> r[i].status == if tasks[i].id == id then status else tasks[i].status
  {
    seq(|tasks|, i requires 0 <= i < |tasks| => if tasks[i].id == id then tasks[i].(status := status) else tasks[i])
  }

  /** The calendar's component state. */
  class Schedule {
    var selectedDate: int
    var tasks: seq<ScheduledTask>
    var selectedTask: Option<ScheduledTask>
    var loading: bool
    var error: string

    constructor (now: int)
      ensures selectedDate == now && tasks == [] && selectedTask.None? && loading && error == ""
    {
      selectedDate, tasks, selectedTask, loading, error := now, [], None, true, "";
    }

    /** `loadTasks`: a resolved call lists the normalised tasks (none when the
        body carries no list); a rejected one keeps the list and sets the error. */
    method LoadTasks(response: Response<seq<Task>>)
      modifies this
      ensures !loading && selectedDate == old(selectedDate) && selectedTask == old(selectedTask)
      ensures response.Success? ==> tasks == NormaliseAll(response.value) && error == ""
      ensures response.Unsuccessful? ==> tasks == [] && error == ""
      ensures response.Thrown? ==> tasks == old(tasks) && error == ErrorText(response.message, "Failed to load tasks")
    {
      error := "";
      match response {
        case Success(list) => tasks := NormaliseAll(list);
        case Unsuccessful => tasks := [];
        case Thrown(message) => error := ErrorText(message, "Failed to load tasks");
      }
      loading := false;
    }

    method HandleTaskClick(task: ScheduledTask)
      modifies this
      ensures selectedTask == Some(task)
      ensures selectedDate == old(selectedDate) && tasks == old(tasks) && error == old(error) && loading == old(loading)
    {
      selectedTask := Some(task);
    }

    /** `handleDateChange`: a new day clears the selection. */
    method HandleDateChange(date: int)
      modifies this
      ensures selectedDate == date && selectedTask.None?
      ensures tasks == old(tasks) && error == old(error) && loading == old(loading)
    {
      selectedDate, selectedTask := date, None;
    }

    /** `toggleTaskStatus`: the flipped status of the clicked task goes to every
        task with its id, and to the selection only when that has the same id. */
    method ToggleTaskStatus(task: ScheduledTask, failure: Option<string>)
      modifies this
      ensures selectedDate == old(selectedDate) && loading == old(loading)
      ensures failure.Some? ==> tasks == old(tasks) && selectedTask == old(selectedTask)
      ensures failure.Some? ==> error == ErrorText(failure.value, "Failed to update task")
      ensures failure.None? ==> tasks == SetStatus(old(tasks), task.id, NextStatus(task.status)) && error == old(error)
      ensures failure.None? && old(selectedTask).Some? && old(selectedTask).value.id == task.id ==>
        selectedTask == Some(old(selectedTask).value.(status := NextStatus(task.status)))
      ensures failure.None? && !(old(selectedTask).Some? && old(selectedTask).value.id == task.id) ==>
        selectedTask == old(selectedTask)
    {
      var newStatus := NextStatus(task.status);
      if failure.Some? {
        error := ErrorText(failure.value, "Failed to update task");
        return;
      }
      tasks := SetStatus(tasks, task.id, newStatus);
      if selectedTask.Some? && selectedTask.value.id == task.id {
        selectedTask := Some(selectedTask.value.(status := newStatus));
      }
    }
  }
}
