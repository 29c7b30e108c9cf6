/** The shapes of the automation layer: tasks, task records and the
    errors the dispatcher reports (src/types/index.ts). */
module Types {

  datatype Option<+T> = None | Some(value: T) {
    function GetOr(default: T): T {
      match this
      case Some(v) => v
      case None => default
    }
  }

  datatype Result<+T, +E> = Ok(value: T) | Err(error: E)

  /** What a call that may throw ends with: it returns normally or throws. */
  datatype Outcome<+E> = Pass | Fail(error: E)

  /** The three states of a task record. */
  datatype Status = Pending | Success | Failed

  /** The text the source interpolates for a status ('pending', 'success', 'failed'). */
  function StatusName(s: Status): string {
    match s
    case Pending => "pending"
    case Success => "success"
    case Failed => "failed"
  }

  /** An argument value handed on to a contract method. */
  datatype Value = Str(s: string) | Num(n: int) | Bool(b: bool)

  /** A submitted task. `kind` is the source's `type`; the optional fields
      stay optional because the handlers test for them. */
  datatype Task = Task(
    kind: string,
    contractAddress: Option<string>,
    methodName: Option<string>,
    params: Option<seq<Value>>)

  /** The plan that the GPT-4 analysis (`analyzeTask`) hands to executeTask.
      It is typed `any`, so it may be `null` or `undefined` (`Nullish`);
      otherwise the dispatcher reads only its contract interface description,
      which the analysis may leave out. */
  type Abi = string
  datatype Analysis = Plan(contractAbi: Option<Abi>) | Nullish(isNull: bool)

  /** What a handler may throw: an `Error` carrying a message, or some other value. */
  datatype Fault = ErrorFault(message: string) | NonErrorValue

  /** How a handler ends. */
  datatype Completion = Completed | Threw(fault: Fault)

  /** A snapshot of a task record's fields. */
  datatype RecordView = RecordView(taskId: string, status: Status, error: Option<string>, timestamp: int)

  /** The two ways `cancelTask` throws. */
  datatype CancelError = TaskNotFound(id: string) | NotCancellable(status: Status) {
    /** The message of the thrown `Error`. */
    function Message(): string {
      match this
      case TaskNotFound(id) => "Task not found: " + id
      case NotCancellable(status) => "Cannot cancel task in " + StatusName(status) + " status"
    }
  }
}
