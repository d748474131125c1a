/** The kanban task board (`TasksPage`): three status columns over the
    API-backed store, drag-and-drop between them, the add-task form's
    visibility and confirmed deletion. */
module TasksPage {
  import opened Wrappers
  import opened Tasks
  import opened RemoteTasks

  datatype Column = Column(id: string, title: string, color: string)

  const Columns: seq<Column> := [
    Column(Pending, "To Do", "bg-gray-100"),
    Column(InProgress, "In Progress", "bg-blue-100"),
    Column(Completed, "Completed", "bg-green-100")
  ]

  /** What the board renders: for each column, `getTasksByStatus(column.id)`. */
  function Board(ts: seq<Task>): (b: seq<seq<Task>>)
    ensures |b| == |Columns|
  {
    [ByStatus(ts, Columns[0].id), ByStatus(ts, Columns[1].id), ByStatus(ts, Columns[2].id)]
  }

  /** `t` appears in one of the lists and in no other. */
  predicate InExactlyOne(b: seq<seq<Task>>, t: Task) {
    exists k :: 0 <= k < |b| && t in b[k] && (forall j :: 0 <= j < |b| && j != k ==> t !in b[j])
  }

  /** A task with one of the three statuses is shown in exactly one column;
      a task with any other status is shown in none. */
  lemma EachTaskInOneColumn(ts: seq<Task>, t: Task)
    requires t in ts
    ensures ValidStatus(t.status) ==> InExactlyOne(Board(ts), t)
    ensures !ValidStatus(t.status) ==> forall j :: 0 <= j < |Columns| ==> t !in Board(ts)[j]
  {
    var b := Board(ts);
    assert t in b[0] <==> t.status == Pending;
    assert t in b[1] <==> t.status == InProgress;
    assert t in b[2] <==> t.status == Completed;
    if t.status == Pending {
      OnlyColumn(b, t, 0);
    } else if t.status == InProgress {
      OnlyColumn(b, t, 1);
    } else if t.status == Completed {
      OnlyColumn(b, t, 2);
    }
  }

  lemma OnlyColumn(b: seq<seq<Task>>, t: Task, i: int)
    requires |b| == |Columns| && 0 <= i < |b| && t in b[i]
    requires forall j :: 0 <= j < |b| && j != i ==> t !in b[j]
    ensures InExactlyOne(b, t)
  {
  }

  /** The status line's colours: green when the message carries the check
      mark, yellow otherwise. */
  function BannerClass(apiStatus: string): (c: string)
    ensures c == "bg-green-100 text-green-700" <==> '\U{2705}' in apiStatus
    ensures c == "bg-green-100 text-green-700" || c == "bg-yellow-100 text-yellow-700"
  {
    if '\U{2705}' in apiStatus then "bg-green-100 text-green-700" else "bg-yellow-100 text-yellow-700"
  }

  /** Successful operations show green; the sample-data fallback yellow. */
  lemma BannerColours(title: string, status: string)
    ensures BannerClass(CreatedMessage) == "bg-green-100 text-green-700"
    ensures BannerClass(DeletedMessage) == "bg-green-100 text-green-700"
    ensures BannerClass(MoveMessage(title, status)) == "bg-green-100 text-green-700"
    ensures BannerClass(UnavailableMessage) == "bg-yellow-100 text-yellow-700"
  {
    assert MoveMessage(title, status)[0] == '\U{2705}';
    assert CreatedMessage[0] == '\U{2705}';
    assert DeletedMessage[0] == '\U{2705}';
    NoCheckMarkInFallback();
  }

  lemma NoCheckMarkInFallback()
    ensures '\U{2705}' !in UnavailableMessage
  {
    var c := '\U{2705}';
    assert c !in Warning;
    assert c !in " TaskFlow API";
    NotInConcat(c, Warning, " TaskFlow API");
    assert c !in " unavailable";
    NotInConcat(c, Warning + " TaskFlow API", " unavailable");
    assert c !in " - showing";
    NotInConcat(c, Warning + " TaskFlow API" + " unavailable", " - showing");
    assert c !in " sample data";
    NotInConcat(c, Warning + " TaskFlow API" + " unavailable" + " - showing", " sample data");
  }

  lemma NotInConcat(c: char, a: string, b: string)
    requires c !in a && c !in b
    ensures c !in a + b
  {
    assert forall i :: 0 <= i < |a + b| ==> (a + b)[i] == if i < |a| then a[i] else b[i - |a|];
  }

  /** The page's own state over the store it renders. */
  class TasksPage {
    const service: TaskService
    var showAddTask: bool
    var draggedTask: Option<Task>

    constructor (service: TaskService)
      ensures this.service == service && !showAddTask && draggedTask == None
    {
      this.service := service;
      showAddTask := false;
      draggedTask := None;
    }

    /** The "Add Task" button. */
    method OpenAddTask()
      modifies this`showAddTask
      ensures showAddTask
    {
      showAddTask := true;
    }

    /** The form's `onClose`. */
    method CloseAddTask()
      modifies this`showAddTask
      ensures !showAddTask
    {
      showAddTask := false;
    }

    /** `handleAddTask(taskData)`: create a record, then hide the form. */
    method HandleAddTask(data: FormData, id: int, today: Day)
      modifies this`showAddTask, service`tasks, service`apiStatus
      ensures !showAddTask && draggedTask == old(draggedTask)
      ensures service.apiStatus == CreatedMessage
      ensures service.tasks == old(service.tasks)
        + [Task(id, data.title, Some(data.description), data.status, data.priority, data.due, today, None, None, None)]
    {
      var _ := service.CreateTask(data, id, today);
      showAddTask := false;
    }

    /** `handleDragStart(e, task)`: remember the record being dragged. */
    method HandleDragStart(t: Task)
      modifies this`draggedTask
      ensures draggedTask == Some(t)
    {
      draggedTask := Some(t);
    }

    /** `handleDrop(e, targetStatus)`: a drop with nothing dragged, or onto
        the status the record had when the drag began, only clears the drag;
        any other drop moves that record in the store first. */
    method HandleDrop(target: string)
      modifies this`draggedTask, service`tasks, service`apiStatus
      ensures draggedTask == None && showAddTask == old(showAddTask)
      ensures old(draggedTask).None? || old(draggedTask).value.status == target ==>
        service.tasks == old(service.tasks) && service.apiStatus == old(service.apiStatus)
      ensures old(draggedTask).Some? && old(draggedTask).value.status != target ==>
        var id := old(draggedTask).value.id;
        service.tasks == MoveStatus(old(service.tasks), id, target)
        && (FindById(old(service.tasks), id).Some? ==>
              service.apiStatus == MoveMessage(FindById(old(service.tasks), id).value.title, target))
        && (FindById(old(service.tasks), id).None? ==> service.apiStatus == old(service.apiStatus))
    {
      if draggedTask.None? || draggedTask.value.status == target {
        draggedTask := None;
        return;
      }
      var _ := service.UpdateTaskStatus(draggedTask.value.id, target);
      draggedTask := None;
    }

    /** `handleDeleteTask(taskId)`: `confirmed` is the answer to the
        confirmation dialog; only a confirmed delete reaches the store. */
    method HandleDeleteTask(id: int, confirmed: bool)
      modifies service`tasks, service`apiStatus
      ensures confirmed ==> service.tasks == WithoutId(old(service.tasks), id) && service.apiStatus == DeletedMessage
      ensures !confirmed ==> service.tasks == old(service.tasks) && service.apiStatus == old(service.apiStatus)
    {
      if !confirmed {
        return;
      }
      var _ := service.DeleteTask(id);
    }
  }
}
