/** The browser-local task store (`useLocalTasks`): an ordered list of tasks
    mirrored to one storage slot under the key `taskflow_tasks`. The slot is
    an abstract `Option<string>`; the JSON encoder and parser are injected
    functions, so the encoding itself is not modelled. */
module LocalTasks {
  import opened Wrappers
  import opened Tasks

  /** The five sample tasks the store falls back to (dates as day numbers:
      20240 is 2025-06-01). */
  const InitialTasks: seq<Task> := [
    Task(1, "Setup Development Environment", Some("Configure development tools and dependencies"),
         Completed, High, Some(20249), 20240, None, None, None),
    Task(2, "Design Database Schema", Some("Create tables and relationships for the application"),
         InProgress, High, Some(20259), 20244, None, None, None),
    Task(3, "Implement Authentication", Some("Add user login and registration functionality"),
         Pending, Medium, Some(20264), 20247, None, None, None),
    Task(4, "Create API Documentation", Some("Document all API endpoints and usage examples"),
         Pending, Low, Some(20270), 20249, None, None, None),
    Task(5, "Write Unit Tests", Some("Add comprehensive test coverage for all components"),
         Pending, Medium, Some(20269), 20251, None, None, None)
  ]

  /** The seed holds five well-formed records with ids 1 to 5, in order. */
  lemma InitialTasksShape()
    ensures |InitialTasks| == 5
    ensures forall i :: 0 <= i < 5 ==> InitialTasks[i].id == i + 1
    ensures AllValidStatus(InitialTasks) && AllValidPriority(InitialTasks)
  {
  }

  /** `Omit<Task, 'id' | 'created_date'>`: what a caller passes to create. */
  datatype TaskDraft = TaskDraft(
    title: string,
    description: Option<string>,
    status: string,
    priority: string,
    due: Option<Day>,
    updated: Option<Day>,
    assignedTo: Option<string>,
    tags: Option<seq<string>>)

  /** `Partial<Task>`: `None` is a key the patch does not mention. */
  datatype TaskPatch = TaskPatch(
    id: Option<int>,
    title: Option<string>,
    description: Option<string>,
    status: Option<string>,
    priority: Option<string>,
    due: Option<Day>,
    created: Option<Day>,
    updated: Option<Day>,
    assignedTo: Option<string>,
    tags: Option<seq<string>>)

  const EmptyPatch: TaskPatch := TaskPatch(None, None, None, None, None, None, None, None, None, None)

  /** The patch `updateTaskStatus` hands to `updateTask`. */
  function StatusPatch(status: string): TaskPatch {
    EmptyPatch.(status := Some(status))
  }

  /** `{ ...task, ...patch }` */
  function Merge(t: Task, p: TaskPatch): Task {
    Task(p.id.GetOr(t.id), p.title.GetOr(t.title),
         if p.description.Some? then p.description else t.description,
         p.status.GetOr(t.status), p.priority.GetOr(t.priority),
         if p.due.Some? then p.due else t.due,
         p.created.GetOr(t.created),
         if p.updated.Some? then p.updated else t.updated,
         if p.assignedTo.Some? then p.assignedTo else t.assignedTo,
         if p.tags.Some? then p.tags else t.tags)
  }

  /** The record `updateTask` puts in place of a match: the patch merged over
      it, and then `updated_date` set to today whatever the patch said. */
  function Stamped(t: Task, p: TaskPatch, today: Day): Task {
    Merge(t, p).(updated := Some(today))
  }

  /** Every record with the id gets the patch spread over it and today as its
      update date; the other records stay. */
  function Updated(ts: seq<Task>, id: int, p: TaskPatch, today: Day): (r: seq<Task>)
    ensures |r| == |ts|
    ensures forall i :: 0 <= i < |ts| ==>
      r[i] == (if ts[i].id == id then Stamped(ts[i], p, today) else ts[i])
  {
    if ts == [] then []
    else [if ts[0].id == id then Stamped(ts[0], p, today) else ts[0]] + Updated(ts[1..], id, p, today)
  }

  /** Updating an id no record has changes nothing. */
  lemma UpdatedAbsent(ts: seq<Task>, id: int, p: TaskPatch, today: Day)
    requires forall t :: t in ts ==> t.id != id
    ensures Updated(ts, id, p, today) == ts
  {
    var r := Updated(ts, id, p, today);
    forall i | 0 <= i < |ts| ensures r[i] == ts[i] {
      assert ts[i] in ts;
    }
  }

  /** After `updateTaskStatus(id, s)` every record with that id has status
      `s` and today's `updated_date`, and everything else is as it was. */
  lemma StatusUpdated(ts: seq<Task>, id: int, s: string, today: Day)
    ensures forall i :: 0 <= i < |ts| && ts[i].id == id ==>
      Updated(ts, id, StatusPatch(s), today)[i] == ts[i].(status := s, updated := Some(today))
    ensures forall t :: t in Updated(ts, id, StatusPatch(s), today) && t.id == id ==>
      t.status == s && t.updated == Some(today)
  {
    var r := Updated(ts, id, StatusPatch(s), today);
    forall t | t in r && t.id == id ensures t.status == s && t.updated == Some(today) {
      var i :| 0 <= i < |r| && r[i] == t;
    }
  }

  /** Looking a task up right after changing its status finds the first
      record with that id, carrying the new status and today's date. */
  lemma {:induction false} FindAfterStatusUpdate(ts: seq<Task>, id: int, s: string, today: Day)
    requires FindById(ts, id).Some?
    ensures FindById(Updated(ts, id, StatusPatch(s), today), id)
            == Some(FindById(ts, id).value.(status := s, updated := Some(today)))
  {
    var r := Updated(ts, id, StatusPatch(s), today);
    assert r[1..] == Updated(ts[1..], id, StatusPatch(s), today);
    if ts[0].id != id {
      FindAfterStatusUpdate(ts[1..], id, s, today);
    }
  }

  /** Deleting an id no record has changes nothing. */
  lemma DeleteAbsent(ts: seq<Task>, id: int)
    requires forall t :: t in ts ==> t.id != id
    ensures WithoutId(ts, id) == ts
  {
    FilterKeepsAll(ts, (t: Task) => t.id != id);
  }

  /** After deleting an id nothing finds it, and every other record keeps
      its place in the order. */
  lemma DeleteRemoves(ts: seq<Task>, id: int)
    ensures FindById(WithoutId(ts, id), id).None?
    ensures forall t :: t in ts && t.id != id ==> t in WithoutId(ts, id)
    ensures IsSubsequence(WithoutId(ts, id), ts)
  {
  }

  /** What the load effect puts in the store: a non-empty slot that parses
      becomes the list; anything else gives the seed. */
  function Loaded(slot: Option<string>, parse: string -> Option<seq<Task>>): seq<Task> {
    match slot
    case Some(s) => if s != "" then parse(s).GetOr(InitialTasks) else InitialTasks
    case None => InitialTasks
  }

  /** A slot the load treats as empty: absent or the empty string. */
  predicate SlotEmpty(slot: Option<string>) {
    slot.None? || slot.value == ""
  }

  /** A slot written by the save effect reads back as the same list, so a
      fresh store loads exactly what was saved, in the same order, whenever
      the parser inverts the encoder on it. */
  lemma ReloadAfterSave(ts: seq<Task>, stringify: seq<Task> -> string, parse: string -> Option<seq<Task>>)
    requires stringify(ts) != ""
    requires parse(stringify(ts)) == Some(ts)
    ensures Loaded(Some(stringify(ts)), parse) == ts
  {
  }

  /** The load falls back to the seed exactly when the slot is empty or does
      not parse. */
  lemma LoadedFallback(slot: Option<string>, parse: string -> Option<seq<Task>>)
    ensures (SlotEmpty(slot) || parse(slot.value).None?) ==> Loaded(slot, parse) == InitialTasks
    ensures !SlotEmpty(slot) && parse(slot.value).Some? ==> Loaded(slot, parse) == parse(slot.value).value
  {
  }

  datatype TaskStats = TaskStats(total: nat, completed: nat, inProgress: nat, pending: nat, completionRate: int)

  /** `getTaskStats()` */
  function GetTaskStats(ts: seq<Task>): (r: TaskStats)
    ensures r.total == |ts| && r.pending == |ByStatus(ts, Pending)|
    ensures r.inProgress == |ByStatus(ts, InProgress)| && r.completed == |ByStatus(ts, Completed)|
    ensures r.pending + r.inProgress + r.completed <= r.total
    ensures r.pending + r.inProgress + r.completed == r.total <==> AllValidStatus(ts)
    ensures 0 <= r.completionRate <= 100
    ensures r.total == 0 ==> r.completionRate == 0
    ensures r.total > 0 ==>
      2 * r.total * r.completionRate - r.total <= 200 * r.completed < 2 * r.total * r.completionRate + r.total
  {
    StatusCountsSum(ts);
    var completed := |ByStatus(ts, Completed)|;
    PercentInRange(completed, |ts|);
    TaskStats(|ts|, completed, |ByStatus(ts, InProgress)|, |ByStatus(ts, Pending)|, Percent(completed, |ts|))
  }

  /** An emptied store reports all-zero statistics. */
  lemma StatsOfEmpty()
    ensures GetTaskStats([]) == TaskStats(0, 0, 0, 0, 0)
  {
  }

  /** One store instance: the list of tasks, the loading flag and the storage
      slot, with the slot's encoder and parser fixed at construction. */
  class LocalTaskStore {
    var tasks: seq<Task>
    var loading: bool
    var slot: Option<string>
    const stringify: seq<Task> -> string
    const parse: string -> Option<seq<Task>>

    /** A freshly mounted hook: no tasks yet, loading, and whatever the slot holds. */
    constructor (stringify: seq<Task> -> string, parse: string -> Option<seq<Task>>, slot: Option<string>)
      ensures tasks == [] && loading && this.slot == slot
      ensures this.stringify == stringify && this.parse == parse
    {
      this.stringify := stringify;
      this.parse := parse;
      this.slot := slot;
      tasks := [];
      loading := true;
    }

    /** The load effect. `readOk` is false when reading the slot throws;
        `writeOk` is false when writing the seed back throws (both land in
        the catch, which seeds without writing). */
    method Load(readOk: bool, writeOk: bool)
      modifies this
      ensures !loading
      ensures tasks == if readOk then Loaded(old(slot), parse) else InitialTasks
      ensures slot == if readOk && SlotEmpty(old(slot)) && writeOk then Some(stringify(InitialTasks)) else old(slot)
    {
      if readOk && !SlotEmpty(slot) {
        var parsed := parse(slot.value);
        tasks := parsed.GetOr(InitialTasks);
      } else {
        tasks := InitialTasks;
        if readOk && writeOk {
          slot := Some(stringify(InitialTasks));
        }
      }
      loading := false;
    }

    /** The save effect, run after every change of the list once loading is
        over; a failed write is swallowed and leaves everything as it was. */
    method SaveEffect(writeOk: bool)
      modifies this`slot
      ensures slot == if !loading && writeOk then Some(stringify(tasks)) else old(slot)
    {
      if !loading && writeOk {
        slot := Some(stringify(tasks));
      }
    }

    /** `createTask(taskData)`: appends one record with the given fresh id,
        created and updated today, and returns it. */
    method CreateTask(draft: TaskDraft, id: int, today: Day) returns (t: Task)
      modifies this`tasks
      ensures tasks == old(tasks) + [t]
      ensures t.id == id && t.created == today && t.updated == Some(today)
      ensures t.title == draft.title && t.description == draft.description
      ensures t.status == draft.status && t.priority == draft.priority && t.due == draft.due
      ensures t.assignedTo == draft.assignedTo && t.tags == draft.tags
    {
      t := Task(id, draft.title, draft.description, draft.status, draft.priority, draft.due,
                today, Some(today), draft.assignedTo, draft.tags);
      tasks := tasks + [t];
    }

    /** `updateTask(id, updates)` */
    method UpdateTask(id: int, p: TaskPatch, today: Day)
      modifies this`tasks
      ensures tasks == Updated(old(tasks), id, p, today)
    {
      tasks := Updated(tasks, id, p, today);
    }

    /** `updateTaskStatus(id, newStatus)` */
    method UpdateTaskStatus(id: int, status: string, today: Day)
      modifies this`tasks
      ensures tasks == Updated(old(tasks), id, StatusPatch(status), today)
    {
      UpdateTask(id, StatusPatch(status), today);
    }

    /** `deleteTask(id)` */
    method DeleteTask(id: int)
      modifies this`tasks
      ensures tasks == WithoutId(old(tasks), id)
    {
      tasks := WithoutId(tasks, id);
    }

    /** `clearAllTasks()`: empties the list, then removes the slot. The
        removal is not guarded: when it throws (`removeOk == false`) the
        error escapes to the caller (`ok == false`), the list update already
        made still takes effect and the slot is kept. The save effect that
        follows the change writes the empty list back. */
    method ClearAllTasks(removeOk: bool) returns (ok: bool)
      modifies this`tasks, this`slot
      ensures tasks == [] && ok == removeOk
      ensures slot == if removeOk then None else old(slot)
    {
      tasks := [];
      if removeOk {
        slot := None;
      }
      ok := removeOk;
    }

    /** `resetTasks()`: back to the seed whatever was there. The write of the
        seed is not guarded, so a failing write escapes to the caller
        (`ok == false`) after the list has been replaced. */
    method ResetTasks(writeOk: bool) returns (ok: bool)
      modifies this`tasks, this`slot
      ensures tasks == InitialTasks && ok == writeOk
      ensures slot == if writeOk then Some(stringify(InitialTasks)) else old(slot)
    {
      tasks := InitialTasks;
      if writeOk {
        slot := Some(stringify(InitialTasks));
      }
      ok := writeOk;
    }
  }

  /** A full session on one slot: after loading and one status move, the
      save effect mirrors the updated list, and a second store reading the
      slot recovers it when the parser inverts the encoder. */
  method ReloadScenario(stringify: seq<Task> -> string, parse: string -> Option<seq<Task>>,
                        slot: Option<string>, id: int, status: string, today: Day)
      returns (first: seq<Task>, second: seq<Task>)
    requires var saved := Updated(Loaded(slot, parse), id, StatusPatch(status), today);
             stringify(saved) != "" && parse(stringify(saved)) == Some(saved)
    ensures first == Updated(Loaded(slot, parse), id, StatusPatch(status), today)
    ensures second == first
  {
    var store := new LocalTaskStore(stringify, parse, slot);
    store.Load(true, true);
    assert store.tasks == Loaded(slot, parse);
    store.UpdateTaskStatus(id, status, today);
    first := store.tasks;
    store.SaveEffect(true);
    var saved := store.slot;
    assert saved == Some(stringify(first));
    ReloadAfterSave(first, stringify, parse);
    var again := new LocalTaskStore(stringify, parse, saved);
    again.Load(true, true);
    second := again.tasks;
  }
}
