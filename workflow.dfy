/** The dispatcher object of src/core/workflow.ts: a table from task id to
    task record objects, updated in place. Every method is proved to do to
    the table's view what the functions of module TaskTable say. */
module Workflow {
  import opened Types
  import opened Handlers
  import opened TaskTable

  /** A task record (TaskResult). Its id and timestamp are set once; its
      status and error are updated in place by the dispatcher. */
  class TaskRecord {
    const taskId: string
    var status: Status
    var error: Option<string>
    const timestamp: int

    constructor (taskId: string, timestamp: int)
      ensures View() == Fresh(taskId, timestamp)
    {
      this.taskId := taskId;
      this.timestamp := timestamp;
      status := Pending;
      error := None;
    }

    function View(): RecordView
      reads this
    {
      RecordView(taskId, status, error, timestamp)
    }
  }

  class WorkflowManager {
    var activeTasks: map<string, TaskRecord>

    /** Every record is stored under its own id, so distinct keys hold distinct records. */
    ghost predicate Valid()
      reads this
    {
      forall id :: id in activeTasks ==> activeTasks[id].taskId == id
    }

    /** The table as values. */
    ghost function Table(): Table
      reads this, activeTasks.Values
    {
      map id | id in activeTasks :: activeTasks[id].View()
    }

    constructor ()
      ensures Valid() && activeTasks == map[] && Table() == map[]
    {
      activeTasks := map[];
    }

    /** The first half of executeTask: a fresh pending record is stored under
        the new id before any handler runs; the id comes from the caller, who
        makes sure it is not in use. */
    method Register(id: string, now: int) returns (r: TaskRecord)
      requires Valid() && id !in activeTasks
      modifies this
      ensures Valid() && fresh(r)
      ensures activeTasks == old(activeTasks)[id := r]
      ensures r.View() == Fresh(id, now)
      ensures Table() == Submit(old(Table()), id, now)
    {
      r := new TaskRecord(id, now);
      activeTasks := activeTasks[id := r];
      assert Table() == old(Table())[id := r.View()];
    }

    /** The second half of executeTask: the stored record is settled by how
        its handler ended. */
    method Finish(r: TaskRecord, c: Completion)
      requires Valid() && r.taskId in activeTasks && activeTasks[r.taskId] == r
      modifies r
      ensures Valid()
      ensures r.View() == Settle(old(r.View()), c)
      ensures Table() == old(Table())[r.taskId := Settle(old(r.View()), c)]
    {
      match c {
        case Completed =>
          r.status := Success;
        case Threw(f) =>
          r.status := Failed;
          r.error := Some(ErrorText(f));
      }
      assert Table() == old(Table())[r.taskId := r.View()];
    }

    /** executeTask: store a pending record, run the handler for the task's
        kind, and settle the record; a handler's fault is recorded, never
        passed on. The returned record is the stored one. */
    method ExecuteTask(id: string, now: int, task: Task, analysis: Analysis, chain: Chain) returns (r: TaskRecord)
      requires Valid() && id !in activeTasks
      modifies this
      ensures Valid() && fresh(r)
      ensures activeTasks == old(activeTasks)[id := r]
      ensures r.View() == Executed(id, now, task, analysis, chain)
      ensures Table() == Execute(old(Table()), id, now, task, analysis, chain)
    {
      r := Register(id, now);
      var c := Dispatch(task, analysis, chain);
      Finish(r, c);
    }

    /** getTaskStatus: the stored record itself, or nothing for an id not in the table. */
    function GetTaskStatus(id: string): (r: Option<TaskRecord>)
      requires Valid()
      reads this, activeTasks.Values
      ensures r.Some? <==> Lookup(Table(), id).Some?
      ensures r.Some? ==> r.value.taskId == id && Lookup(Table(), id) == Some(r.value.View())
    {
      if id in activeTasks then Some(activeTasks[id]) else None
    }

    /** cancelTask: fails a pending record in place; otherwise throws, changing nothing. */
    method CancelTask(id: string) returns (o: Outcome<CancelError>)
      requires Valid()
      modifies activeTasks.Values
      ensures Valid() && activeTasks == old(activeTasks)
      ensures o.Pass? ==> Cancel(old(Table()), id) == Ok(Table())
      ensures o.Fail? ==> Cancel(old(Table()), id) == Err(o.error) && Table() == old(Table())
    {
      if id !in activeTasks {
        return Fail(TaskNotFound(id));
      }
      var task := activeTasks[id];
      if task.status == Pending {
        task.status := Failed;
        task.error := Some(CancelledByUser);
        assert Table() == old(Table())[id := task.View()];
        o := Pass;
      } else {
        o := Fail(NotCancellable(task.status));
      }
    }
  }

  /** A client of the dispatcher: the record executeTask returns is the one a
      later status lookup finds, and a cancel of it or of an unknown id throws. */
  method ExecuteThenCancel(id: string, unknown: string, now: int, task: Task, analysis: Analysis, chain: Chain)
    returns (r: TaskRecord, lookedUp: Option<TaskRecord>, first: Outcome<CancelError>, second: Outcome<CancelError>)
    requires id != unknown
    ensures r.View() == Executed(id, now, task, analysis, chain)
    ensures lookedUp == Some(r)
    ensures first == Fail(NotCancellable(r.status))
    ensures second == Fail(TaskNotFound(unknown))
  {
    var manager := new WorkflowManager();
    r := manager.ExecuteTask(id, now, task, analysis, chain);
    lookedUp := manager.GetTaskStatus(r.taskId);
    assert lookedUp == Some(r);
    CancelAfterExecuteFails(map[], id, now, task, analysis, chain);
    first := manager.CancelTask(id);
    second := manager.CancelTask(unknown);
  }
}
