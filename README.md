# Task dispatcher of web3-automation, in Dafny

This project models `WorkflowManager` (src/core/workflow.ts), the task
dispatcher of the web3-automation agent. The dispatcher keeps an in-memory
table from task id to task record (`TaskResult`: id, status, optional error,
timestamp). `executeTask` stores a `pending` record under a new id and runs
the handler for the task's kind (`contract_interaction`, `payment` or
`monitoring`). It then settles the record as `success` or `failed`. A fault
from a handler is written into the record and never passed on.
`getTaskStatus` looks a record up. `cancelTask` fails a `pending` record and
throws in every other case.

Layout:

- `types.dfy` (module `Types`): the shapes of src/types/index.ts. A task's
  `type` field is called `kind` and its `method` field `methodName`, because
  `type` and `method` are Dafny keywords. `RecordView` is a snapshot of a
  task record. `CancelError` holds the two errors `cancelTask` throws, with
  their exact messages.
- `handlers.dfy` (module `Handlers`): the `switch` of `executeTask` and the
  three handlers, as functions that say how a handler ends (`Completed` or
  `Threw(fault)`). The chain client is an oracle `Chain`. It takes a
  `ChainRequest` (address, interface description, method name, arguments)
  and says whether `getContract`, the method call and `waitForTransaction`
  together return or throw.
- `task_table.dfy` (module `TaskTable`): the table as a value. It has the
  functions `Submit`, `Settle`, `Execute`, `Lookup` and `Cancel`, plus `Step`
  and `Replay` over sequences of operations. The lemmas here state what the
  source promises.
- `workflow.dfy` (module `Workflow`): the classes `TaskRecord` and
  `WorkflowManager`. The manager's field `activeTasks` maps ids to record
  objects. `executeTask` reassigns that map. `cancelTask`, `Finish` and the
  settling step write a stored record's `status` and `error` fields in
  place. The record `executeTask` returns is the stored object, and the
  model keeps that aliasing. Each method is proved to change the table view
  `Table()` as the matching `TaskTable` function says.

Points of the code the model keeps:

- `!task.contractAddress || !task.method` (workflow.ts:69) also rejects an
  empty string, not only an absent field.
- The plan is typed `any` (workflow.ts:29). When it is `null` or
  `undefined`, reading `analysis.contractAbi` (workflow.ts:75) throws a
  TypeError before `getContract` runs. The record then ends `failed` with
  that TypeError's message, in Node's wording.
- `getTaskStatus` returns `undefined` for an unknown id. It does not throw.
- The errors are plain `Error`s with the messages the code builds. There is
  no separate error taxonomy.

## Model

| member | source | states |
|---|---|---|
| Workflow.TaskRecord.constructor | src/core/workflow.ts:31-35 | a new record carries the given id and timestamp, is `pending` and has no error |
| Workflow.WorkflowManager.constructor | src/core/workflow.ts:11-16 | the manager starts with an empty task table |
| Workflow.WorkflowManager.Register | src/core/workflow.ts:30-37 | before any handler runs, exactly one key is added: the new id, holding a fresh `pending` record with no error; every other record is untouched |
| Workflow.WorkflowManager.Finish | src/core/workflow.ts:57-61 | the stored record becomes `success` when its handler returned, else `failed` with the fault's text; no other record changes |
| Workflow.WorkflowManager.ExecuteTask | src/core/workflow.ts:29-66 | the table gains exactly the new id; the returned record is the stored object, settled as `Execute`/`Executed` say; no fault escapes (there is no error result) |
| Workflow.WorkflowManager.GetTaskStatus | src/core/workflow.ts:92-94 | returns the stored record for an id in the table, whose id is the one asked for, and nothing for any other id; being a function it changes nothing |
| Workflow.WorkflowManager.CancelTask | src/core/workflow.ts:96-109 | follows `Cancel`: a pending record is failed in place; an unknown id or a non-pending record throws and the table is unchanged; the map itself is never reassigned |
| Workflow.ExecuteThenCancel | src/core/workflow.ts:29-109 | the record executeTask returns is settled as `Executed` says, a later lookup of its id returns that same object, cancelling it throws "Cannot cancel task in <its status> status", and cancelling an id never issued throws "Task not found" |
| Handlers.Dispatch | src/core/workflow.ts:43-55 | a handler returns normally exactly for `payment`, `monitoring`, and a `contract_interaction` with address, method and plan present whose chain call returns (both directions) |
| Handlers.ContractInteraction | src/core/workflow.ts:68-80 | the handler can return normally only when address, method and plan are present, and then its outcome is the chain's answer to this task's request |
| Handlers.Payment | src/core/workflow.ts:82-85 | the payment handler never throws |
| Handlers.Monitoring | src/core/workflow.ts:87-90 | the monitoring handler never throws |
| Handlers.ErrorText | src/core/workflow.ts:61 | the recorded error is the message of a thrown `Error`, and 'Unknown error' for any other thrown value |
| Handlers.UnsupportedKindThrows | src/core/workflow.ts:53-54 | a kind outside the three throws an `Error` "Unsupported task type: " followed by the kind |
| Handlers.MissingFieldsThrowBeforeChain | src/core/workflow.ts:68-71 | a contract interaction with an absent or empty address or method throws the fixed message, and its outcome does not depend on the chain: the chain is never reached |
| Handlers.NullishPlanThrowsBeforeChain | src/core/workflow.ts:73-76 | with both fields present, a `null` or `undefined` plan throws the TypeError of reading `contractAbi`, and the outcome does not depend on the chain: the chain is never reached |
| Handlers.ChainDecidesContractInteraction | src/core/workflow.ts:73-79 | with both fields and the plan present, the outcome is the chain's answer for this task's address, method, the plan's `contractAbi` and its parameters, with absent parameters passed as `[]` |
| Handlers.PlaceholdersComplete | src/core/workflow.ts:82-90 | the payment and monitoring handlers never throw |
| TaskTable.SubmitAddsOnePending | src/core/workflow.ts:30-37 | submission grows the table by exactly one key, whose record is `pending` without error, and keeps every existing record |
| TaskTable.ExecutedOutcome | src/core/workflow.ts:57-65 | the returned record is never `pending`; it is `success` (with no error) exactly when the handler returned, else `failed` with the fault's message, or 'Unknown error' for a non-`Error` |
| TaskTable.ExecuteFrame | src/core/workflow.ts:29-66 | executing with a fresh id adds exactly that key, holding the executed record, and leaves every other record equal |
| TaskTable.UnsupportedKindFails | src/core/workflow.ts:53-61 | an unsupported kind yields a `failed` record whose error is "Unsupported task type: " followed by the kind |
| TaskTable.MissingFieldsFail | src/core/workflow.ts:68-71 | a contract interaction missing its address or method yields `failed` with 'Contract address and method are required for contract interaction', the same for every chain |
| TaskTable.NullishPlanFails | src/core/workflow.ts:73-76 | a contract interaction with both fields but a `null` or `undefined` plan yields `failed` with the TypeError's message, the same for every chain |
| TaskTable.PlaceholdersSucceed | src/core/workflow.ts:47-57 | payment and monitoring tasks always yield `success` with no error |
| TaskTable.LookupAfterExecute | src/core/workflow.ts:92-94 | a lookup of an executed task's id returns the record executeTask returned |
| TaskTable.CancelOutcome | src/core/workflow.ts:96-108 | cancel succeeds exactly on a `pending` record; an absent id gives "Task not found"; any other status gives "Cannot cancel task in <status> status" |
| TaskTable.CancelFrame | src/core/workflow.ts:102-105 | a successful cancel keeps the keys, sets that record to `failed` with 'Task cancelled by user' keeping its id and timestamp, and changes no other record |
| TaskTable.CancelTwiceFails | src/core/workflow.ts:102-108 | a second cancel of the same id always throws, reporting status `failed` |
| TaskTable.CancelAfterExecuteFails | src/core/workflow.ts:102-108 | a task executeTask has returned cannot be cancelled: the cancel throws, naming the record's terminal status |
| TaskTable.ReplayKeys | src/core/workflow.ts:29-37 | over any sequence of operations, records are never removed and the only keys added are the executed ids, so a lookup of an id never issued finds nothing |
| TaskTable.ReplayWellKeyed | src/core/workflow.ts:31-37 | every record stays stored under its own id across any sequence of operations |
| TaskTable.StepChanges | src/core/workflow.ts:29-108 | with a fresh id, one operation leaves an existing record equal, or cancels it from `pending` |
| TaskTable.ReplayChanges | src/core/workflow.ts:96-108 | with fresh ids, over any sequence of operations a record is either unchanged or was `pending` and is now cancelled |
| TaskTable.TerminalRecordsStay | src/core/workflow.ts:102-108 | with fresh ids, a `success` or `failed` record never changes again |
| TaskTable.ReplayStaysSettled | src/core/workflow.ts:57-61 | operations issued one after another never leave a `pending` record in a table that had none |
| TaskTable.SequentialCancelFails | src/core/workflow.ts:102-108 | starting from the empty table, with one call at a time, cancelTask never succeeds: only a concurrent caller can catch a record in `pending` |

## Left out

- Task ids: `generateTaskId` (src/core/workflow.ts:111-113) uses the clock and `Math.random`. The id is a parameter, and `ExecuteTask` requires that it is not already a key. The source's `Map.set` would silently overwrite a record on a collision, and the model does not cover that case.
- Timestamps: `Date.now()` is a parameter.
- Concurrency: `executeTask` is modelled as one sequential step. With `await`, a `cancelTask` running in between could set `failed` and then see `status = 'success'` overwrite it (line 57). `TerminalRecordsStay` and `SequentialCancelFails` hold only for calls made one at a time.
- Handler state: the handlers are pure, so a handler that cancels its own task is not modelled.
- The chain client (src/core/blockchain.ts) is not part of this model. `getContract`, the contract method call and `waitForTransaction` are one oracle that returns or throws. A method name missing from the interface makes the call throw, and that case sits inside the oracle.
- The orchestrator (src/core/agent.ts) is not part of this model. That covers the GPT-4 analysis (`analyzeTask`), `JSON.parse`, configuration validation and prompt building. The plan enters as `null`, `undefined`, or an object of which only `contractAbi`, which may be absent, is read. A plan of another primitive type (a number or a string) is not represented.
- Logging (src/utils/logger.ts) and `initialize`, which only logs.
- `WorkflowConfig` (`maxConcurrentTasks`, `retryStrategy`): no logic reads it.
- `TaskResult.result` is never set. `Task.metadata` is never read.
- Argument values are strings, integers or booleans. Other JavaScript values are passed through opaquely by the source and are not represented.
- Workflow.TaskRecord.constructor: `taskId` and `timestamp` are constant fields. The source could reassign them, but no code does.
