/** The task manager page (Components/Features/Taskmanager.jsx): the task
    list, the add-task form with its guard, completion and deletion by id, the
    badge and variant mappings. Service calls are replaced by the response
    each handler receives. */
module TaskManager {
  import opened Optional
  import opened Text
  import opened Sorting
  import opened Records

  // ---------------------------------------------------------- list updates

  /** The completed copy of one task. */
  function Completed(t: Task): Task {
    t.(status := "Completed", isCompleted := true)
  }

  /** `tasks.map(t => t._id === id ? {...t, status: 'Completed', isCompleted: true} : t)`. */
  function MarkCompleted(tasks: seq<Task>, id: string): (r: seq<Task>)
    ensures |r| == |tasks|
    ensures forall i :: 0 <= i < |tasks| && tasks[i].id == id ==>
      r[i] == tasks[i].(status := "Completed", isCompleted := true)
    ensures forall i :: 0 <= i < |tasks| && tasks[i].id != id ==> r[i] == tasks[i]
  {
    seq(|tasks|, i requires 0 <= i < |tasks| => if tasks[i].id == id then Completed(tasks[i]) else tasks[i])
  }

  /** Completing twice is completing once, and a completed task stays
      completed on the dashboard's reading too. */
  lemma MarkCompletedIdempotent(tasks: seq<Task>, id: string)
    ensures MarkCompleted(MarkCompleted(tasks, id), id) == MarkCompleted(tasks, id)
    ensures forall i :: 0 <= i < |tasks| && tasks[i].id == id ==> IsCompleted(MarkCompleted(tasks, id)[i])
  {
  }

  /** `tasks.filter(t => t._id !== id)`. */
  function RemoveById(tasks: seq<Task>, id: string): (r: seq<Task>)
    ensures forall t :: t in r <==> t in tasks && t.id != id
    ensures |r| == |tasks| - CountId(tasks, id)
  {
    if tasks == [] then []
    else (if tasks[0].id != id then [tasks[0]] else []) + RemoveById(tasks[1..], id)
  }

  /** The number of tasks carrying `id`. */
  function CountId(tasks: seq<Task>, id: string): (r: nat)
    ensures r <= |tasks|
  {
    if tasks == [] then 0 else (if tasks[0].id == id then 1 else 0) + CountId(tasks[1..], id)
  }

  /** Deleting works piece by piece, so the survivors keep their relative order. */
  lemma {:induction false} RemoveByIdAppend(a: seq<Task>, b: seq<Task>, id: string)
    ensures RemoveById(a + b, id) == RemoveById(a, id) + RemoveById(b, id)
  {
    if a == [] {
      assert a + b == b;
    } else {
      assert (a + b)[0] == a[0] && (a + b)[1..] == a[1..] + b;
      RemoveByIdAppend(a[1..], b, id);
    }
  }

  /** A task without the id survives deletion in place of its run. */
  lemma RemoveByIdKeepsOthers(before: seq<Task>, t: Task, after: seq<Task>, id: string)
    requires t.id != id
    ensures RemoveById(before + [t] + after, id) == RemoveById(before, id) + [t] + RemoveById(after, id)
  {
    RemoveByIdAppend(before + [t], after, id);
    RemoveByIdAppend(before, [t], id);
    assert RemoveById([t], id) == [t];
  }

  // ---------------------------------------------------------------- badges

  predicate InCompletedBadge(t: Task) { t.isCompleted }
  predicate InPendingBadge(t: Task) { !t.isCompleted && t.status != "Overdue" }
  predicate InOverdueBadge(t: Task) { t.status == "Overdue" }

  /** Every task shows in some badge; Pending overlaps neither of the others,
      while a completed task whose status says Overdue is counted twice. */
  lemma BadgesCover(t: Task)
    ensures InCompletedBadge(t) || InPendingBadge(t) || InOverdueBadge(t)
    ensures !(InPendingBadge(t) && InCompletedBadge(t)) && !(InPendingBadge(t) && InOverdueBadge(t))
  {
  }

  /** The badge counts add up to the total plus the doubly counted tasks. */
  lemma {:induction false} BadgeCounts(tasks: seq<Task>)
    ensures |Filter(tasks, InCompletedBadge)| + |Filter(tasks, InPendingBadge)| + |Filter(tasks, InOverdueBadge)|
         == |tasks| + |Filter(tasks, (t: Task) => InCompletedBadge(t) && InOverdueBadge(t))|
  {
    if tasks != [] {
      BadgeCounts(tasks[1..]);
    }
  }

  /** The Completed badge reads only the flag, the dashboard also the status:
      the badge implies the dashboard's reading, not the reverse. */
  lemma BadgeStricterThanDashboard(t: Task)
    ensures InCompletedBadge(t) ==> IsCompleted(t)
    ensures !InCompletedBadge(t.(status := "completed", isCompleted := false))
    ensures IsCompleted(t.(status := "completed", isCompleted := false))
  {
  }

  // -------------------------------------------------------------- variants

  /** `getPriorityVariant`: exact-case names only. */
  function PriorityVariant(priority: string): (r: string)
    ensures r == "danger" <==> priority == "High"
    ensures r == "warning" <==> priority == "Medium"
    ensures r == "success" <==> priority == "Low"
    ensures r == "secondary" <==> priority !in {"High", "Medium", "Low"}
  {
    match priority
    case "High" => "danger"
    case "Medium" => "warning"
    case "Low" => "success"
    case _ => "secondary"
  }

  /** `getStatusVariant`: exact-case names only. */
  function StatusVariant(status: string): (r: string)
    ensures r == "success" <==> status == "Completed"
    ensures r == "info" <==> status == "In Progress"
    ensures r == "danger" <==> status == "Overdue"
    ensures r == "secondary" <==> status !in {"Completed", "In Progress", "Overdue"}
  {
    match status
    case "Completed" => "success"
    case "In Progress" => "info"
    case "Overdue" => "danger"
    case _ => "secondary"
  }

  /** Unlike the dashboard's colour, the variant is case-sensitive. */
  lemma PriorityVariantCaseSensitive()
    ensures PriorityVariant("high") == "secondary" && PriorityVariant("High") == "danger"
  {
  }

  // ------------------------------------------------------------------ form

  /** The add-task form after a reset. */
  const EmptyForm: map<string, string> := map[
    "title" := "", "description" := "", "subject" := "",
    "priority" := "Medium", "dueDate" := "", "estimatedTime" := ""]

  /** A form field; a field never set reads as undefined, which is falsy. */
  function Field(form: map<string, string>, name: string): string {
    if name in form then form[name] else ""
  }

  /** The guard of `handleAddTask`. */
  predicate CanAdd(form: map<string, string>) {
    Field(form, "title") != "" && Field(form, "subject") != "" && Field(form, "dueDate") != ""
  }

  /** The request body: the form with estimatedTime read by parseInt (None for
      an empty field or NaN). */
  datatype TaskPayload = TaskPayload(fields: map<string, string>, estimatedTime: Option<int>)

  function PayloadOf(form: map<string, string>): (r: TaskPayload)
    ensures r.fields == form
    ensures Field(form, "estimatedTime") == "" ==> r.estimatedTime.None?
  {
    var raw := Field(form, "estimatedTime");
    TaskPayload(form, if raw == "" then None else ParseInt(raw))
  }

  lemma PayloadOfNumber(form: map<string, string>, n: int)
    requires Field(form, "estimatedTime") == IntToString(n)
    ensures PayloadOf(form).estimatedTime == Some(n)
  {
    ParseIntOfIntToString(n);
  }

  class Manager {
    var tasks: seq<Task>
    var loading: bool
    var error: string
    var showModal: bool
    var newTask: map<string, string>

    constructor ()
      ensures tasks == [] && loading && error == "" && !showModal && newTask == EmptyForm
    {
      tasks, loading, error, showModal, newTask := [], true, "", false, EmptyForm;
    }

    /** `fetchTasks`. */
    method FetchTasks(response: Response<seq<Task>>)
      modifies this
      ensures !loading && showModal == old(showModal) && newTask == old(newTask)
      ensures response.Success? ==> tasks == response.value && error == old(error)
      ensures response.Unsuccessful? ==> tasks == old(tasks) && error == old(error)
      ensures response.Thrown? ==> tasks == old(tasks) && error == ErrorText(response.message, "Failed to load tasks")
    {
      match response {
        case Success(list) => tasks := list;
        case Unsuccessful =>
        case Thrown(message) => error := ErrorText(message, "Failed to load tasks");
      }
      loading := false;
    }

    /** `handleInputChange`: one field of the form. */
    method HandleInputChange(name: string, value: string)
      modifies this
      ensures newTask == old(newTask)[name := value]
      ensures tasks == old(tasks) && error == old(error) && showModal == old(showModal) && loading == old(loading)
    {
      newTask := newTask[name := value];
    }

    /** `handleAddTask`: a form failing the guard sends nothing and only sets the
        error; otherwise the payload is sent and `response` is what came back. */
    method HandleAddTask(response: Response<Task>) returns (sent: Option<TaskPayload>)
      modifies this
      ensures loading == old(loading)
      ensures !CanAdd(old(newTask)) ==> sent.None? && error == "Title, Subject, and Due Date are required"
      ensures !CanAdd(old(newTask)) ==> tasks == old(tasks) && newTask == old(newTask) && showModal == old(showModal)
      ensures CanAdd(old(newTask)) ==> sent == Some(PayloadOf(old(newTask)))
      ensures CanAdd(old(newTask)) && response.Success? ==>
        tasks == old(tasks) + [response.value] && newTask == EmptyForm && !showModal && error == ""
      ensures CanAdd(old(newTask)) && response.Unsuccessful? ==>
        tasks == old(tasks) && newTask == old(newTask) && showModal == old(showModal) && error == old(error)
      ensures CanAdd(old(newTask)) && response.Thrown? ==>
        tasks == old(tasks) && newTask == old(newTask) && showModal == old(showModal)
      ensures CanAdd(old(newTask)) && response.Thrown? ==> error == ErrorText(response.message, "Failed to create task")
    {
      if !CanAdd(newTask) {
        error := "Title, Subject, and Due Date are required";
        return None;
      }
      sent := Some(PayloadOf(newTask));
      match response {
        case Success(created) => SetState(tasks + [created], EmptyForm, false, "");
        case Unsuccessful =>
        case Thrown(message) => SetState(tasks, newTask, showModal, ErrorText(message, "Failed to create task"));
      }
    }

    /** The state setters `handleAddTask` calls once the request has settled. */
    method SetState(list: seq<Task>, form: map<string, string>, modal: bool, message: string)
      modifies this
      ensures tasks == list && newTask == form && showModal == modal && error == message && loading == old(loading)
    {
      tasks, newTask, showModal, error := list, form, modal, message;
    }

    /** `toggleTaskCompletion`: on success, exactly the tasks with the id are
        marked completed. */
    method ToggleTaskCompletion(id: string, response: Response<()>)
      modifies this
      ensures newTask == old(newTask) && showModal == old(showModal) && loading == old(loading)
      ensures response.Success? ==> tasks == MarkCompleted(old(tasks), id) && error == old(error)
      ensures response.Unsuccessful? ==> tasks == old(tasks) && error == old(error)
      ensures response.Thrown? ==> tasks == old(tasks) && error == ErrorText(response.message, "Failed to update task")
    {
      match response {
        case Success(_) => tasks := MarkCompleted(tasks, id);
        case Unsuccessful =>
        case Thrown(message) => error := ErrorText(message, "Failed to update task");
      }
    }

    /** `deleteTask`: on success, exactly the tasks with the id are removed. */
    method DeleteTask(id: string, response: Response<()>)
      modifies this
      ensures newTask == old(newTask) && showModal == old(showModal) && loading == old(loading)
      ensures response.Success? ==> tasks == RemoveById(old(tasks), id) && error == old(error)
      ensures response.Unsuccessful? ==> tasks == old(tasks) && error == old(error)
      ensures response.Thrown? ==> tasks == old(tasks) && error == ErrorText(response.message, "Failed to delete task")
    {
      match response {
        case Success(_) => tasks := RemoveById(tasks, id);
        case Unsuccessful =>
        case Thrown(message) => error := ErrorText(message, "Failed to delete task");
      }
    }
  }
}
