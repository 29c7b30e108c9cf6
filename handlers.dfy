/** The task-kind handlers of the dispatcher and the routing between them
    (src/core/workflow.ts, executeTask's switch and the three execute* handlers).
    The handlers change no dispatcher state, so they are functions that say how
    a handler ends; the chain client is an oracle consulted once per contract call. */
module Handlers {
  import opened Types

  const ContractInteractionKind := "contract_interaction"
  const PaymentKind := "payment"
  const MonitoringKind := "monitoring"

  const MissingContractFields := "Contract address and method are required for contract interaction"

  /** The message thrown for a kind outside the closed set. */
  function UnsupportedKind(kind: string): string {
    "Unsupported task type: " + kind
  }

  /** The closed set of task kinds the switch routes. */
  predicate Supported(kind: string) {
    kind == ContractInteractionKind || kind == PaymentKind || kind == MonitoringKind
  }

  /** The TypeError Node raises for `analysis.contractAbi` when the plan is
      `null` or `undefined`. */
  function NullishPlanMessage(isNull: bool): string {
    "Cannot read properties of " + (if isNull then "null" else "undefined") + " (reading 'contractAbi')"
  }

  /** JavaScript truthiness of an optional string: present and not empty. */
  predicate Truthy(s: Option<string>) {
    s.Some? && s.value != ""
  }

  /** Everything the chain client is handed for one contract call: the
      address and interface for `getContract`, the method name and the
      argument list for the call whose transaction is then awaited. */
  datatype ChainRequest = ChainRequest(
    contractAddress: string,
    contractAbi: Option<Abi>,
    methodName: string,
    args: seq<Value>)

  /** The chain client as seen by the handler: getContract, the method call
      and waitForTransaction together either return or throw. */
  type Chain = ChainRequest -> Completion

  /** The request a contract-interaction task makes once its fields are present. */
  function RequestOf(task: Task, analysis: Analysis): ChainRequest
    requires Truthy(task.contractAddress) && Truthy(task.methodName) && analysis.Plan?
  {
    ChainRequest(task.contractAddress.value, analysis.contractAbi, task.methodName.value, task.params.GetOr([]))
  }

  /** executeContractInteraction: the field check, then reading the plan's
      interface description, then the chain call. */
  function ContractInteraction(task: Task, analysis: Analysis, chain: Chain): (c: Completion)
    ensures c.Completed? ==> Truthy(task.contractAddress) && Truthy(task.methodName) && analysis.Plan?
    ensures Truthy(task.contractAddress) && Truthy(task.methodName) && analysis.Plan? ==>
      c == chain(RequestOf(task, analysis))
  {
    if !Truthy(task.contractAddress) || !Truthy(task.methodName) then
      Threw(ErrorFault(MissingContractFields))
    else if analysis.Nullish? then
      Threw(ErrorFault(NullishPlanMessage(analysis.isNull)))
    else
      chain(RequestOf(task, analysis))
  }

  /** A placeholder that only logs. */
  function Payment(task: Task, analysis: Analysis): (c: Completion)
    ensures c.Completed?
  {
    Completed
  }

  /** A placeholder that only logs. */
  function Monitoring(task: Task, analysis: Analysis): (c: Completion)
    ensures c.Completed?
  {
    Completed
  }

  /** The switch on the task kind. A handler completes exactly for the two
      placeholder kinds, and for a contract interaction whose fields and plan
      are present and whose chain call returns. */
  function Dispatch(task: Task, analysis: Analysis, chain: Chain): (c: Completion)
    ensures c.Completed? <==>
      || task.kind == PaymentKind
      || task.kind == MonitoringKind
      || (&& task.kind == ContractInteractionKind
          && Truthy(task.contractAddress) && Truthy(task.methodName) && analysis.Plan?
          && chain(RequestOf(task, analysis)).Completed?)
  {
    if task.kind == ContractInteractionKind then ContractInteraction(task, analysis, chain)
    else if task.kind == PaymentKind then Payment(task, analysis)
    else if task.kind == MonitoringKind then Monitoring(task, analysis)
    else Threw(ErrorFault(UnsupportedKind(task.kind)))
  }

  /** The error text recorded for a fault: the message of an `Error`, and
      'Unknown error' for anything else that was thrown. */
  function ErrorText(f: Fault): (text: string)
    ensures f.ErrorFault? ==> text == f.message
    ensures f.NonErrorValue? ==> text == "Unknown error"
  {
    match f
    case ErrorFault(m) => m
    case NonErrorValue => "Unknown error"
  }

  /** A kind outside the closed set throws an `Error` naming the kind. */
  lemma UnsupportedKindThrows(task: Task, analysis: Analysis, chain: Chain)
    requires !Supported(task.kind)
    ensures Dispatch(task, analysis, chain) == Threw(ErrorFault("Unsupported task type: " + task.kind))
  {
  }

  /** A contract interaction without a (non-empty) address or method throws
      before the chain is consulted: the outcome is the same for every chain. */
  lemma MissingFieldsThrowBeforeChain(task: Task, analysis: Analysis, chain: Chain, other: Chain)
    requires task.kind == ContractInteractionKind
    requires !Truthy(task.contractAddress) || !Truthy(task.methodName)
    ensures Dispatch(task, analysis, chain) == Threw(ErrorFault(MissingContractFields))
    ensures Dispatch(task, analysis, chain) == Dispatch(task, analysis, other)
  {
  }

  /** With both fields present, a `null` or `undefined` plan makes reading
      its interface description throw a TypeError before the chain is
      consulted: the outcome is the same for every chain. */
  lemma NullishPlanThrowsBeforeChain(task: Task, analysis: Analysis, chain: Chain, other: Chain)
    requires task.kind == ContractInteractionKind
    requires Truthy(task.contractAddress) && Truthy(task.methodName)
    requires analysis.Nullish?
    ensures Dispatch(task, analysis, chain) == Threw(ErrorFault(NullishPlanMessage(analysis.isNull)))
    ensures Dispatch(task, analysis, chain) == Dispatch(task, analysis, other)
  {
  }

  /** With both fields and the plan present, the chain is asked exactly once,
      with the task's address and method, the plan's interface and the
      parameters (an absent list is passed as empty), and its outcome is the
      handler's. */
  lemma ChainDecidesContractInteraction(task: Task, analysis: Analysis, chain: Chain)
    requires task.kind == ContractInteractionKind
    requires Truthy(task.contractAddress) && Truthy(task.methodName) && analysis.Plan?
    ensures Dispatch(task, analysis, chain) == chain(ChainRequest(
      task.contractAddress.value, analysis.contractAbi, task.methodName.value,
      if task.params.Some? then task.params.value else []))
  {
  }

  /** The payment and monitoring placeholders never throw. */
  lemma PlaceholdersComplete(task: Task, analysis: Analysis, chain: Chain)
    requires task.kind == PaymentKind || task.kind == MonitoringKind
    ensures Dispatch(task, analysis, chain) == Completed
  {
  }
}
