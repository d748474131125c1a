/** The API-backed task store (`useTasks`) the kanban board uses: the fetched
    list, a loading flag and a status line shown above the board. */
module RemoteTasks {
  import opened Wrappers
  import opened Tasks
  import Text

  /** `TaskFormData`: what the form submits. `due` is `None` for the
      empty date input. */
  datatype FormData = FormData(title: string, description: string, priority: string, status: string, due: Option<Day>)

  /** What the API client's `fetchTasks` resolves to. */
  datatype Fetched = Fetched(tasks: seq<Task>, apiStatus: string)

  const Ok: string := "\U{2705}"
  const Warning: string := "\U{26A0}\U{FE0F}"

  /** "⚠️ TaskFlow API unavailable - showing sample data", kept in short
      pieces so that facts about its characters stay cheap to prove. */
  const UnavailableMessage: string := Warning + " TaskFlow API" + " unavailable" + " - showing" + " sample data"
  const CreatedMessage: string := Ok + " Task created successfully"
  const DeletedMessage: string := Ok + " Task deleted successfully"

  /** The four records shown when the fetch fails. */
  const MockTasks: seq<Task> := [
    Task(1, "Design new homepage", Some("Create wireframes and mockups for the new homepage design"),
         InProgress, High, Some(20254), 20240, None, None, None),
    Task(2, "Fix login bug", Some("Investigate and fix the authentication issue reported by users"),
         Pending, Urgent, Some(20249), 20241, None, None, None),
    Task(3, "Update documentation", Some("Update API documentation with new endpoints"),
         Completed, Medium, Some(20247), 20238, None, None, None),
    Task(4, "Code review for API", Some("Review pull request for new API features"),
         Pending, High, Some(20251), 20242, None, None, None)
  ]

  lemma MockTasksShape()
    ensures |MockTasks| == 4
    ensures forall i :: 0 <= i < 4 ==> MockTasks[i].id == i + 1
    ensures AllValidStatus(MockTasks) && AllValidPriority(MockTasks)
  {
  }

  /** The status line after a move: the title in quotes and the new status
      with its first '-' turned into a space. */
  function MoveMessage(title: string, status: string): string {
    Ok + " Task \"" + title + "\" moved to " + Text.ReplaceFirst(status, '-', ' ')
  }

  /** The message of a move to "in-progress" reads "in progress". */
  lemma MoveMessageInProgress(title: string)
    ensures MoveMessage(title, InProgress) == Ok + " Task \"" + title + "\" moved to " + "in progress"
  {
    InProgressSpaced();
  }

  /** The list mapped so that every record with the id becomes the same
      replacement record, and every other record stays. */
  function ReplaceById(ts: seq<Task>, id: int, replacement: Task): (r: seq<Task>)
    ensures |r| == |ts|
    ensures forall i :: 0 <= i < |ts| ==> r[i] == if ts[i].id == id then replacement else ts[i]
  {
    if ts == [] then []
    else [if ts[0].id == id then replacement else ts[0]] + ReplaceById(ts[1..], id, replacement)
  }

  /** The list after `updateTaskStatus(id, s)`: the first record with the id,
      with only its status changed, replaces every record with that id. */
  function MoveStatus(ts: seq<Task>, id: int, status: string): seq<Task> {
    match FindById(ts, id)
    case None => ts
    case Some(t) => ReplaceById(ts, id, t.(status := status))
  }

  /** A move keeps the length and the positions; records with other ids are
      untouched; a record with the id gets the new status and keeps every
      other field, `updated_date` included, when the id is unique. */
  lemma MoveStatusEffect(ts: seq<Task>, id: int, status: string)
    ensures |MoveStatus(ts, id, status)| == |ts|
    ensures forall i :: 0 <= i < |ts| && ts[i].id != id ==> MoveStatus(ts, id, status)[i] == ts[i]
    ensures forall i :: 0 <= i < |ts| && ts[i].id == id ==>
      MoveStatus(ts, id, status)[i] == FindById(ts, id).value.(status := status)
    ensures (forall i, j :: 0 <= i < j < |ts| ==> ts[i].id != ts[j].id) ==>
      forall i :: 0 <= i < |ts| && ts[i].id == id ==> MoveStatus(ts, id, status)[i] == ts[i].(status := status)
  {
    if FindById(ts, id).Some? && forall i, j :: 0 <= i < j < |ts| ==> ts[i].id != ts[j].id {
      forall i | 0 <= i < |ts| && ts[i].id == id ensures FindById(ts, id).value == ts[i] {
        UniqueFind(ts, id, i);
      }
    }
  }

  /** With unique ids, the record found for an id is the one at its index. */
  lemma {:induction false} UniqueFind(ts: seq<Task>, id: int, i: int)
    requires 0 <= i < |ts| && ts[i].id == id
    requires forall a, b :: 0 <= a < b < |ts| ==> ts[a].id != ts[b].id
    ensures FindById(ts, id) == Some(ts[i])
  {
    if i > 0 {
      assert ts[0].id != id by {
        assert ts[0].id != ts[i].id;
      }
      UniqueFind(ts[1..], id, i - 1);
    }
  }

  /** `useTasks()`: the API-backed store. */
  class TaskService {
    var tasks: seq<Task>
    var loading: bool
    var apiStatus: string

    constructor ()
      ensures tasks == [] && loading && apiStatus == ""
    {
      tasks := [];
      loading := true;
      apiStatus := "";
    }

    /** `loadTasks()`: `fetched` is the fetch's result, `None` when it throws. */
    method LoadTasks(fetched: Option<Fetched>)
      modifies this
      ensures !loading
      ensures fetched.Some? ==> tasks == fetched.value.tasks && apiStatus == fetched.value.apiStatus
      ensures fetched.None? ==> tasks == MockTasks && apiStatus == UnavailableMessage
    {
      loading := true;
      match fetched {
        case Some(f) =>
          tasks := f.tasks;
          apiStatus := f.apiStatus;
        case None =>
          apiStatus := UnavailableMessage;
          tasks := MockTasks;
      }
      loading := false;
    }

    /** `createTask(taskData)`: appends one record with the given fresh id,
        created today and with no `updated_date`, and reports success. */
    method CreateTask(data: FormData, id: int, today: Day) returns (ok: bool)
      modifies this`tasks, this`apiStatus
      ensures ok && apiStatus == CreatedMessage
      ensures |tasks| == |old(tasks)| + 1 && tasks[..|old(tasks)|] == old(tasks)
      ensures tasks[|old(tasks)|] == Task(id, data.title, Some(data.description), data.status, data.priority,
                                          data.due, today, None, None, None)
    {
      var t := Task(id, data.title, Some(data.description), data.status, data.priority, data.due, today, None, None, None);
      tasks := tasks + [t];
      apiStatus := CreatedMessage;
      ok := true;
    }

    /** `updateTaskStatus(taskId, newStatus)`: `false` and no change for an
        unknown id; otherwise the move and its message, and `true`. */
    method UpdateTaskStatus(id: int, status: string) returns (ok: bool)
      modifies this`tasks, this`apiStatus
      ensures ok <==> exists t :: t in old(tasks) && t.id == id
      ensures tasks == MoveStatus(old(tasks), id, status)
      ensures !ok ==> tasks == old(tasks) && apiStatus == old(apiStatus)
      ensures ok ==> apiStatus == MoveMessage(FindById(old(tasks), id).value.title, status)
    {
      var found := FindById(tasks, id);
      if found.None? {
        return false;
      }
      var task := found.value;
      tasks := ReplaceById(tasks, id, task.(status := status));
      apiStatus := MoveMessage(task.title, status);
      ok := true;
    }

    /** `deleteTask(taskId)`: removes every record with the id and reports
        success whether or not one matched. */
    method DeleteTask(id: int) returns (ok: bool)
      modifies this`tasks, this`apiStatus
      ensures ok && apiStatus == DeletedMessage
      ensures tasks == WithoutId(old(tasks), id)
    {
      tasks := WithoutId(tasks, id);
      apiStatus := DeletedMessage;
      ok := true;
    }
  }
}
