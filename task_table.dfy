/** The dispatcher's task table as a value: what submitting, executing,
    looking up and cancelling do to the map from task id to task record
    (src/core/workflow.ts). The class in module Workflow is proved to follow
    these functions; the lemmas here state what they promise. */
module TaskTable {
  import opened Types
  import opened Handlers

  type Table = map<string, RecordView>

  const CancelledByUser := "Task cancelled by user"

  /** Every key names its own record. */
  predicate WellKeyed(t: Table) {
    forall id :: id in t ==> t[id].taskId == id
  }

  /** No record of the table is still pending. */
  predicate Settled(t: Table) {
    forall id :: id in t ==> t[id].status != Pending
  }

  /** The record created at submission. */
  function Fresh(id: string, now: int): RecordView {
    RecordView(id, Pending, None, now)
  }

  /** Inserting the pending record of a new task. */
  function Submit(t: Table, id: string, now: int): Table {
    t[id := Fresh(id, now)]
  }

  /** What the end of executeTask does to the record once its handler has ended. */
  function Settle(v: RecordView, c: Completion): RecordView {
    match c
    case Completed => v.(status := Success)
    case Threw(f) => v.(status := Failed, error := Some(ErrorText(f)))
  }

  /** The record executeTask returns. */
  function Executed(id: string, now: int, task: Task, analysis: Analysis, chain: Chain): RecordView {
    Settle(Fresh(id, now), Dispatch(task, analysis, chain))
  }

  /** The table after executeTask: the record is submitted, then settled. */
  function Execute(t: Table, id: string, now: int, task: Task, analysis: Analysis, chain: Chain): Table {
    var t1 := Submit(t, id, now);
    t1[id := Settle(t1[id], Dispatch(task, analysis, chain))]
  }

  function Lookup(t: Table, id: string): Option<RecordView> {
    if id in t then Some(t[id]) else None
  }

  /** The guarded transition of cancelTask. */
  function Cancel(t: Table, id: string): Result<Table, CancelError> {
    if id !in t then
      Err(TaskNotFound(id))
    else if t[id].status == Pending then
      Ok(t[id := t[id].(status := Failed, error := Some(CancelledByUser))])
    else
      Err(NotCancellable(t[id].status))
  }

  /** Submission adds the one new key, pending and without error, and keeps the rest. */
  lemma SubmitAddsOnePending(t: Table, id: string, now: int)
    requires id !in t
    ensures Submit(t, id, now).Keys == t.Keys + {id}
    ensures |Submit(t, id, now)| == |t| + 1
    ensures Submit(t, id, now)[id].status == Pending && Submit(t, id, now)[id].error == None
    ensures forall k :: k in t ==> Submit(t, id, now)[k] == t[k]
  {
  }

  /** The record executeTask returns is never pending; it is `success`
      exactly when the handler returned, and otherwise `failed` with the
      fault's message (or 'Unknown error') as its error. */
  lemma ExecutedOutcome(id: string, now: int, task: Task, analysis: Analysis, chain: Chain)
    ensures var r := Executed(id, now, task, analysis, chain);
      && r.taskId == id && r.timestamp == now
      && r.status != Pending
      && (r.status == Success <==> Dispatch(task, analysis, chain).Completed?)
      && (r.status == Success ==> r.error == None)
      && (r.status == Failed ==> r.error == Some(ErrorText(Dispatch(task, analysis, chain).fault)))
  {
  }

  /** executeTask adds exactly the new key, holding the executed record, and
      leaves every other record as it was. */
  lemma ExecuteFrame(t: Table, id: string, now: int, task: Task, analysis: Analysis, chain: Chain)
    requires id !in t
    ensures Execute(t, id, now, task, analysis, chain).Keys == t.Keys + {id}
    ensures Execute(t, id, now, task, analysis, chain)[id] == Executed(id, now, task, analysis, chain)
    ensures forall k :: k in t ==> Execute(t, id, now, task, analysis, chain)[k] == t[k]
  {
  }

  /** A task of an unsupported kind ends failed, naming the kind. */
  lemma UnsupportedKindFails(id: string, now: int, task: Task, analysis: Analysis, chain: Chain)
    requires !Supported(task.kind)
    ensures Executed(id, now, task, analysis, chain)
         == RecordView(id, Failed, Some("Unsupported task type: " + task.kind), now)
  {
  }

  /** A contract interaction missing its address or method ends failed with
      the fixed message, whatever the chain would have done. */
  lemma MissingFieldsFail(id: string, now: int, task: Task, analysis: Analysis, chain: Chain, other: Chain)
    requires task.kind == ContractInteractionKind
    requires !Truthy(task.contractAddress) || !Truthy(task.methodName)
    ensures Executed(id, now, task, analysis, chain)
         == RecordView(id, Failed, Some(MissingContractFields), now)
    ensures Executed(id, now, task, analysis, chain) == Executed(id, now, task, analysis, other)
  {
  }

  /** A contract interaction with both fields but a `null` or `undefined`
      plan ends failed with the TypeError's message, whatever the chain would
      have done. */
  lemma NullishPlanFails(id: string, now: int, task: Task, analysis: Analysis, chain: Chain, other: Chain)
    requires task.kind == ContractInteractionKind
    requires Truthy(task.contractAddress) && Truthy(task.methodName) && analysis.Nullish?
    ensures Executed(id, now, task, analysis, chain)
         == RecordView(id, Failed, Some(NullishPlanMessage(analysis.isNull)), now)
    ensures Executed(id, now, task, analysis, chain) == Executed(id, now, task, analysis, other)
  {
  }

  /** Payment and monitoring tasks always end in success. */
  lemma PlaceholdersSucceed(id: string, now: int, task: Task, analysis: Analysis, chain: Chain)
    requires task.kind == PaymentKind || task.kind == MonitoringKind
    ensures Executed(id, now, task, analysis, chain) == RecordView(id, Success, None, now)
  {
  }

  /** Looking up the id of an executed task gives the record executeTask returned. */
  lemma LookupAfterExecute(t: Table, id: string, now: int, task: Task, analysis: Analysis, chain: Chain)
    ensures Lookup(Execute(t, id, now, task, analysis, chain), id) == Some(Executed(id, now, task, analysis, chain))
  {
  }

  /** Cancelling succeeds exactly on a pending record; otherwise it reports
      the missing id or the status it found. */
  lemma CancelOutcome(t: Table, id: string)
    ensures Cancel(t, id).Ok? <==> id in t && t[id].status == Pending
    ensures id !in t ==> Cancel(t, id) == Err(TaskNotFound(id))
    ensures id in t && t[id].status != Pending ==> Cancel(t, id) == Err(NotCancellable(t[id].status))
  {
  }

  /** A successful cancel fails the one record with 'Task cancelled by user'
      and changes nothing else. */
  lemma CancelFrame(t: Table, id: string)
    requires Cancel(t, id).Ok?
    ensures var t' := Cancel(t, id).value;
      && t'.Keys == t.Keys
      && t'[id] == RecordView(t[id].taskId, Failed, Some(CancelledByUser), t[id].timestamp)
      && forall k :: k in t && k != id ==> t'[k] == t[k]
  {
  }

  /** A second cancel of the same id always fails. */
  lemma CancelTwiceFails(t: Table, id: string)
    requires Cancel(t, id).Ok?
    ensures Cancel(Cancel(t, id).value, id) == Err(NotCancellable(Failed))
  {
  }

  /** A task that executeTask has returned can no longer be cancelled. */
  lemma CancelAfterExecuteFails(t: Table, id: string, now: int, task: Task, analysis: Analysis, chain: Chain)
    ensures Cancel(Execute(t, id, now, task, analysis, chain), id)
         == Err(NotCancellable(Executed(id, now, task, analysis, chain).status))
  {
  }

  /** The dispatcher's public operations, as a client issues them one after another. */
  datatype Op =
    | ExecuteOp(id: string, now: int, task: Task, analysis: Analysis, chain: Chain)
    | CancelOp(id: string)
    | StatusOp(id: string)

  /** One operation's effect on the table; a cancel that throws changes nothing. */
  function Step(t: Table, op: Op): Table {
    match op
    case ExecuteOp(id, now, task, analysis, chain) => Execute(t, id, now, task, analysis, chain)
    case CancelOp(id) => (match Cancel(t, id) case Ok(t') => t' case Err(_) => t)
    case StatusOp(_) => t
  }

  function Replay(t: Table, ops: seq<Op>): Table
    decreases |ops|
  {
    if ops == [] then t else Replay(Step(t, ops[0]), ops[1..])
  }

  /** Every executed task gets an id not yet in the table, as the id
      generator is meant to guarantee. */
  predicate FreshIds(t: Table, ops: seq<Op>)
    decreases |ops|
  {
    ops == [] || ((ops[0].ExecuteOp? ==> ops[0].id !in t) && FreshIds(Step(t, ops[0]), ops[1..]))
  }

  /** The ids of the executed tasks. */
  function Issued(ops: seq<Op>): set<string>
    decreases |ops|
  {
    if ops == [] then {}
    else (if ops[0].ExecuteOp? then {ops[0].id} else {}) + Issued(ops[1..])
  }

  /** Records are never removed, and the only keys ever added are the issued
      ids: a status lookup of an id never issued finds nothing. */
  lemma {:induction false} ReplayKeys(t: Table, ops: seq<Op>)
    ensures Replay(t, ops).Keys == t.Keys + Issued(ops)
    decreases |ops|
  {
    if ops != [] {
      ReplayKeys(Step(t, ops[0]), ops[1..]);
    }
  }

  /** Every record keeps the id it is stored under. */
  lemma {:induction false} ReplayWellKeyed(t: Table, ops: seq<Op>)
    requires WellKeyed(t)
    ensures WellKeyed(Replay(t, ops))
    decreases |ops|
  {
    if ops != [] {
      ReplayWellKeyed(Step(t, ops[0]), ops[1..]);
    }
  }

  /** One operation changes an existing record only by cancelling it from `pending`. */
  lemma StepChanges(t: Table, op: Op, id: string)
    requires id in t
    requires op.ExecuteOp? ==> op.id !in t
    ensures id in Step(t, op)
    ensures Step(t, op)[id] == t[id]
         || (t[id].status == Pending && Step(t, op)[id] == t[id].(status := Failed, error := Some(CancelledByUser)))
  {
  }

  /** With fresh ids, a record only ever moves from `pending` to failed by a
      cancel; a `success` or `failed` record never changes again. */
  lemma {:induction false} ReplayChanges(t: Table, ops: seq<Op>, id: string)
    requires FreshIds(t, ops)
    requires id in t
    ensures id in Replay(t, ops)
    ensures Replay(t, ops)[id] == t[id]
         || (t[id].status == Pending && Replay(t, ops)[id] == t[id].(status := Failed, error := Some(CancelledByUser)))
    decreases |ops|
  {
    if ops != [] {
      var t1 := Step(t, ops[0]);
      StepChanges(t, ops[0], id);
      ReplayChanges(t1, ops[1..], id);
    }
  }

  /** Terminal records are immutable. */
  lemma TerminalRecordsStay(t: Table, ops: seq<Op>, id: string)
    requires FreshIds(t, ops)
    requires id in t && t[id].status != Pending
    ensures id in Replay(t, ops) && Replay(t, ops)[id] == t[id]
  {
    ReplayChanges(t, ops, id);
  }

  /** Since executeTask settles its record before returning, a table built
      by executing and cancelling one call after another holds no pending
      record. */
  lemma {:induction false} ReplayStaysSettled(t: Table, ops: seq<Op>)
    requires Settled(t)
    ensures Settled(Replay(t, ops))
    decreases |ops|
  {
    if ops != [] {
      var t1 := Step(t, ops[0]);
      match ops[0] {
        case ExecuteOp(id, now, task, analysis, chain) =>
          ExecutedOutcome(id, now, task, analysis, chain);
        case CancelOp(id) =>
        case StatusOp(id) =>
      }
      assert Settled(t1);
      ReplayStaysSettled(t1, ops[1..]);
    }
  }

  /** So, without a concurrent caller, cancelTask never succeeds on a table
      that started empty. */
  lemma SequentialCancelFails(ops: seq<Op>, id: string)
    ensures Cancel(Replay(map[], ops), id).Err?
  {
    ReplayStaysSettled(map[], ops);
  }
}
