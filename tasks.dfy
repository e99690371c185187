/** The local task store: reads that hide soft-deleted rows, and the three
    mutations, each of which marks the row `pending` and stamps `updated_at`. */
module Tasks {
  import opened Domain
  import opened Database

  /** `SELECT * FROM tasks WHERE id = ? AND is_deleted = 0`. */
  function GetTask(tasks: map<string, Task>, id: string): (r: Option<Task>)
    ensures r.Some? <==> id in tasks && !tasks[id].isDeleted
    ensures r.Some? ==> r.value == tasks[id] && !r.value.isDeleted
  {
    if id in tasks && !tasks[id].isDeleted then Some(tasks[id]) else None
  }

  /** `SELECT * FROM tasks WHERE is_deleted = 0`; the query fixes no order, so
      the rows are a set. */
  function GetAllTasks(tasks: map<string, Task>): (r: set<Task>)
    ensures forall t :: t in r ==> !t.isDeleted
  {
    set id | id in tasks && !tasks[id].isDeleted :: tasks[id]
  }

  /** The row `createTask` inserts. */
  function NewTask(id: string, title: string, description: Option<string>, now: int): (t: Task)
    ensures t.id == id && t.title == Str(title)
    ensures t.description == Str(if description.Some? then description.value else "")
    ensures !t.completed && !t.isDeleted
    ensures t.createdAt == now && t.updatedAt == now && t.syncStatus == Pending
  {
    // `taskData.description || ''`: an absent or empty description is stored as ''
    var d := match description case Some(s) => s case None => "";
    Task(id, Str(title), Str(d), false, false, now, now, Pending)
  }

  /** The row `updateTask` writes: title, description and completed come from
      the patch where it has the key, otherwise from the existing row;
      `updated_at` is the clock and the status `pending`. The UPDATE statement
      sets no other column. */
  function Merge(existing: Task, patch: TaskPatch, now: int): (t: Task)
    ensures t.id == existing.id && t.isDeleted == existing.isDeleted
    ensures t.createdAt == existing.createdAt
    ensures t.updatedAt == now && t.syncStatus == Pending
  {
    existing.(
      title := match patch.title case Some(v) => v case None => existing.title,
      description := match patch.description case Some(v) => v case None => existing.description,
      completed := match patch.completed case Some(v) => v case None => existing.completed,
      updatedAt := now,
      syncStatus := Pending)
  }

  /** The row `deleteTask` writes. */
  function SoftDeleted(existing: Task, now: int): (t: Task)
    ensures t.isDeleted && t.updatedAt == now && t.syncStatus == Pending
    ensures t.id == existing.id && t.title == existing.title
    ensures t.description == existing.description && t.completed == existing.completed
    ensures t.createdAt == existing.createdAt
  {
    existing.(isDeleted := true, updatedAt := now, syncStatus := Pending)
  }

  /** A whole task passed as `updates`: all three persisted keys are present. */
  function PatchOf(t: Task): (p: TaskPatch)
    ensures p.title.Some? && p.description.Some? && p.completed.Some?
  {
    TaskPatch(Some(t.title), Some(t.description), Some(t.completed))
  }

  class TaskService {
    const db: Database

    constructor (db: Database)
      ensures this.db == db
    {
      this.db := db;
    }

    /** `id` stands for the fresh UUID the service draws; `now` for the clock. */
    method CreateTask(title: string, description: Option<string>, id: string, now: int) returns (t: Task)
      requires db.Valid()
      requires id !in db.tasks
      modifies db
      ensures db.Valid()
      ensures t == NewTask(id, title, description, now)
      ensures db.tasks == old(db.tasks)[id := t]
      ensures db.queue == old(db.queue)
    {
      t := NewTask(id, title, description, now);
      db.tasks := db.tasks[id := t];
    }

    method UpdateTask(id: string, updates: TaskPatch, now: int) returns (r: Result<Task>)
      requires db.Valid()
      modifies db
      ensures db.Valid()
      ensures db.queue == old(db.queue)
      ensures r.Err? <==> GetTask(old(db.tasks), id).None?
      ensures r.Err? ==> r.message == TaskNotFound && db.tasks == old(db.tasks)
      ensures r.Ok? ==> r.value == Merge(old(db.tasks)[id], updates, now)
                        && db.tasks == old(db.tasks)[id := r.value]
    {
      var existing := GetTask(db.tasks, id);
      if existing.None? {
        return Err(TaskNotFound);
      }
      var updated := Merge(existing.value, updates, now);
      db.tasks := db.tasks[id := updated];
      r := Ok(updated);
    }

    method DeleteTask(id: string, now: int) returns (r: Result<()>)
      requires db.Valid()
      modifies db
      ensures db.Valid()
      ensures db.queue == old(db.queue)
      ensures r.Err? <==> GetTask(old(db.tasks), id).None?
      ensures r.Err? ==> r.message == TaskNotFound && db.tasks == old(db.tasks)
      ensures r.Ok? ==> db.tasks == old(db.tasks)[id := SoftDeleted(old(db.tasks)[id], now)]
    {
      var existing := GetTask(db.tasks, id);
      if existing.None? {
        return Err(TaskNotFound);
      }
      db.tasks := db.tasks[id := SoftDeleted(existing.value, now)];
      r := Ok(());
    }
  }

  // Properties of the task table

  /** `getAllTasks` returns exactly the tasks `getTask` finds. */
  lemma AllTasksAreVisible(tasks: map<string, Task>, t: Task)
    requires KeysMatch(tasks)
    ensures t in GetAllTasks(tasks) <==> GetTask(tasks, t.id) == Some(t)
  {
    if GetTask(tasks, t.id) == Some(t) {
      assert t == tasks[t.id];
    }
  }

  /** Creating a task adds exactly the new row to what the reads return. */
  lemma CreateAddsOne(tasks: map<string, Task>, id: string, title: string, description: Option<string>, now: int)
    requires KeysMatch(tasks) && id !in tasks
    ensures var t := NewTask(id, title, description, now);
      KeysMatch(tasks[id := t])
      && GetTask(tasks[id := t], id) == Some(t)
      && GetAllTasks(tasks[id := t]) == GetAllTasks(tasks) + {t}
  {
    var t := NewTask(id, title, description, now);
    var after := tasks[id := t];
    assert GetAllTasks(after) == GetAllTasks(tasks) + {t} by {
      forall u ensures u in GetAllTasks(after) <==> u in GetAllTasks(tasks) + {t} {
        AllTasksAreVisible(tasks, u);
        AllTasksAreVisible(after, u);
      }
    }
  }

  /** A successful update replaces the row with that id among the visible
      tasks and leaves every other row as it was. */
  lemma UpdateReplaces(tasks: map<string, Task>, id: string, patch: TaskPatch, now: int)
    requires KeysMatch(tasks) && GetTask(tasks, id).Some?
    ensures var t := Merge(tasks[id], patch, now);
      KeysMatch(tasks[id := t])
      && GetTask(tasks[id := t], id) == Some(t)
      && GetAllTasks(tasks[id := t]) == GetAllTasks(tasks) - {tasks[id]} + {t}
  {
    var t := Merge(tasks[id], patch, now);
    var after := tasks[id := t];
    forall u ensures u in GetAllTasks(after) <==> u in GetAllTasks(tasks) - {tasks[id]} + {t} {
      AllTasksAreVisible(tasks, u);
      AllTasksAreVisible(after, u);
    }
  }

  /** After a soft delete the task is hidden from both reads (so a second
      delete or an update reports "Task not found"), and nothing else changes
      in what the reads return. */
  lemma DeleteHides(tasks: map<string, Task>, id: string, now: int)
    requires KeysMatch(tasks) && GetTask(tasks, id).Some?
    ensures var after := tasks[id := SoftDeleted(tasks[id], now)];
      KeysMatch(after)
      && GetTask(after, id).None?
      && GetAllTasks(after) == GetAllTasks(tasks) - {tasks[id]}
  {
    var after := tasks[id := SoftDeleted(tasks[id], now)];
    forall u ensures u in GetAllTasks(after) <==> u in GetAllTasks(tasks) - {tasks[id]} {
      AllTasksAreVisible(tasks, u);
      AllTasksAreVisible(after, u);
    }
  }

  /** Writing a whole task as the patch copies its title, description and
      completed flag, and keeps the target row's id, deletion flag and
      creation time. */
  lemma MergeWholeTask(existing: Task, winner: Task, now: int)
    ensures var t := Merge(existing, PatchOf(winner), now);
      t == existing.(title := winner.title, description := winner.description,
                     completed := winner.completed, updatedAt := now, syncStatus := Pending)
  {
  }
}
