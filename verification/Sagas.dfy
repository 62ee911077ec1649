/**
 The payment saga: its instances and transitions (internal/paymentworkflow/domain/workflow.go),
 their table (internal/paymentworkflow/adapters/sqlite/repository.go), its messages, and
 the decisions of the payment executor (internal/paymentworkflow/application/payment_executor.go).
 */
module Sagas {
  import opened Outcomes
  import opened Decimal
  import opened Payments
  import opened PaymentStore

  const UNSET := 0

  datatype SagaStep = StepAuthorize | StepCapture | StepRefund | StepCancel

  datatype SagaStatus = StatusRunning | StatusCompensating | StatusCompleted | StatusFailed

  function StepName(step: SagaStep): string {
    match step
    case StepAuthorize => "authorize"
    case StepCapture => "capture"
    case StepRefund => "refund"
    case StepCancel => "cancel"
  }

  datatype AsyncOperation = AsyncOperation(
    id: string,
    paymentId: string,
    kind: string,
    payload: string,
    scheduledAt: int)

  /**
   Message payloads: no bytes, an amount and currency (zero and empty when absent), an
   encoded operation, or undecodable text.
   */
  datatype Payload = Empty | Request(input: Input) | Operation(operation: AsyncOperation) | Malformed

  datatype Input = Input(amount: int, currency: string)

  /** What the executor reads from a payload as amount and currency. */
  function Decode(payload: Payload): Option<Input> {
    match payload
    case Empty => Some(Input(0, ""))
    case Request(input) => Some(input)
    case Operation(_) => Some(Input(0, ""))
    case Malformed => None
  }

  // ----- Instances -----

  datatype Instance = Instance(
    id: string,
    paymentId: string,
    payload: Payload,
    status: SagaStatus,
    currentStep: SagaStep,
    completed: seq<SagaStep>,
    compensation: seq<SagaStep>,
    seed: nat,
    version: nat,
    updatedAt: int)

  datatype SagaError = InvalidSagaId | InvalidSagaTransition

  /** The id of the saga over a payment. */
  function SagaIdOf(paymentId: string): string {
    "saga:" + paymentId
  }

  function NewInstance(id: string, paymentId: string, payload: Payload, seed: nat,
                       at: int): Result<Instance, SagaError> {
    if id == "" then Err(InvalidSagaId)
    else if paymentId == "" || at == UNSET then Err(InvalidSagaTransition)
    else Ok(Instance(id, paymentId, payload, StatusRunning, StepAuthorize, [], [], seed, 1, at))
  }

  function Bump(i: Instance, at: int): Instance {
    i.(version := (i.version + 1) % VERSIONS, updatedAt := at)
  }

  function AfterSuccess(i: Instance, step: SagaStep, at: int): Result<Instance, SagaError> {
    if i.status != StatusRunning || step != i.currentStep then Err(InvalidSagaTransition)
    else if step in i.completed then Ok(i)
    else
      var done := Bump(i.(completed := i.completed + [step]), at);
      Ok(if step == StepAuthorize then done.(currentStep := StepCapture)
         else if step == StepCapture then done.(status := StatusCompleted)
         else done)
  }

  /** The steps that undo what was completed. */
  function CompensationFor(completed: seq<SagaStep>): seq<SagaStep> {
    if StepCapture in completed then [StepRefund, StepCancel]
    else if StepAuthorize in completed then [StepCancel]
    else []
  }

  function AfterBeginCompensation(i: Instance, at: int): Result<Instance, SagaError> {
    if i.status != StatusRunning then Err(InvalidSagaTransition)
    else
      var compensation := CompensationFor(i.completed);
      var begun := Bump(i.(compensation := compensation), at);
      Ok(if compensation == [] then begun.(status := StatusFailed)
         else begun.(status := StatusCompensating, currentStep := compensation[0]))
  }

  function AfterCompensationSuccess(i: Instance, step: SagaStep, at: int): Result<Instance, SagaError> {
    if i.status != StatusCompensating || i.compensation == [] || step != i.currentStep then Err(InvalidSagaTransition)
    else
      var rest := Bump(i.(compensation := i.compensation[1..]), at);
      Ok(if rest.compensation == [] then rest.(status := StatusFailed) else rest.(currentStep := rest.compensation[0]))
  }

  predicate SagaOutcome(r: Result<Instance, SagaError>, before: Instance, after: Instance, err: Option<SagaError>) {
    match r
    case Ok(i) => after == i && err == None
    case Err(e) => after == before && err == Some(e)
  }

  class Saga {
    const id: string
    const paymentId: string
    const payload: Payload
    const seed: nat
    var status: SagaStatus
    var currentStep: SagaStep
    var completed: seq<SagaStep>
    var compensation: seq<SagaStep>
    var version: nat
    var updatedAt: int

    constructor Load(i: Instance)
      ensures State() == i
    {
      id, paymentId, payload, seed := i.id, i.paymentId, i.payload, i.seed;
      status, currentStep, completed, compensation := i.status, i.currentStep, i.completed, i.compensation;
      version, updatedAt := i.version, i.updatedAt;
    }

    function State(): Instance
      reads this
    {
      Instance(id, paymentId, payload, status, currentStep, completed, compensation, seed, version, updatedAt)
    }

    method Contains(step: SagaStep) returns (found: bool)
      ensures found <==> step in completed
    {
      for n := 0 to |completed|
        invariant step !in completed[..n]
      {
        if completed[n] == step {
          return true;
        }
      }
      return false;
    }

    method ApplySuccess(step: SagaStep, at: int) returns (err: Option<SagaError>)
      modifies this
      ensures SagaOutcome(AfterSuccess(old(State()), step, at), old(State()), State(), err)
    {
      if status != StatusRunning || step != currentStep {
        return Some(InvalidSagaTransition);
      }
      var applied := Contains(step);
      if applied {
        return None;
      }
      completed := completed + [step];
      version := (version + 1) % VERSIONS;
      updatedAt := at;
      match step {
        case StepAuthorize => currentStep := StepCapture;
        case StepCapture => status := StatusCompleted;
        case _ =>
      }
      return None;
    }

    method BeginCompensation(at: int) returns (err: Option<SagaError>)
      modifies this
      ensures SagaOutcome(AfterBeginCompensation(old(State()), at), old(State()), State(), err)
    {
      if status != StatusRunning {
        return Some(InvalidSagaTransition);
      }
      status := StatusCompensating;
      compensation := Undo(completed);
      if compensation == [] {
        status := StatusFailed;
        version := (version + 1) % VERSIONS;
        updatedAt := at;
        return None;
      }
      currentStep := compensation[0];
      version := (version + 1) % VERSIONS;
      updatedAt := at;
      return None;
    }

    method ApplyCompensationSuccess(step: SagaStep, at: int) returns (err: Option<SagaError>)
      modifies this
      ensures SagaOutcome(AfterCompensationSuccess(old(State()), step, at), old(State()), State(), err)
    {
      if status != StatusCompensating || compensation == [] || step != currentStep {
        return Some(InvalidSagaTransition);
      }
      compensation := compensation[1..];
      version := (version + 1) % VERSIONS;
      updatedAt := at;
      if compensation == [] {
        status := StatusFailed;
        return None;
      }
      currentStep := compensation[0];
      return None;
    }
  }

  method Undo(completed: seq<SagaStep>) returns (steps: seq<SagaStep>)
    ensures steps == CompensationFor(completed)
  {
    for n := 0 to |completed|
      invariant StepCapture !in completed[..n]
    {
      if completed[n] == StepCapture {
        return [StepRefund, StepCancel];
      }
    }
    for n := 0 to |completed|
      invariant StepAuthorize !in completed[..n]
    {
      if completed[n] == StepAuthorize {
        return [StepCancel];
      }
    }
    return [];
  }

  // ----- The table -----

  type SagaTable = map<string, Instance>

  /** The upsert with its guard on the version; the payment of an existing row is kept. */
  function SaveSaga(sagas: SagaTable, i: Instance): Option<SagaTable> {
    if i.id !in sagas then Some(sagas[i.id := i])
    else if sagas[i.id].version != i.version - 1 then None
    else Some(sagas[i.id := i.(paymentId := sagas[i.id].paymentId)])
  }

  /** Only a new saga or the very next version is accepted; it keeps its payment, and others stay. */
  lemma SaveSagaIff(sagas: SagaTable, i: Instance)
    ensures SaveSaga(sagas, i).Some? <==> (i.id in sagas ==> i.version == sagas[i.id].version + 1)
    ensures SaveSaga(sagas, i).Some? ==>
              var after := SaveSaga(sagas, i).value;
              && after.Keys == sagas.Keys + {i.id} && (forall k :: k in sagas && k != i.id ==> after[k] == sagas[k])
              && after[i.id] == if i.id in sagas then i.(paymentId := sagas[i.id].paymentId) else i
  {
  }

  class SagaRepository {
    var sagas: SagaTable

    constructor ()
      ensures sagas == map[]
    {
      sagas := map[];
    }

    method Save(saga: Saga) returns (conflict: bool)
      modifies this
      ensures match SaveSaga(old(sagas), saga.State())
              case Some(after) => sagas == after && !conflict
              case None => sagas == old(sagas) && conflict
    {
      if saga.id in sagas {
        var row := sagas[saga.id];
        if row.version != saga.version - 1 {
          return true;
        }
        sagas := sagas[saga.id := row.(payload := saga.payload, status := saga.status, currentStep := saga.currentStep,
          completed := saga.completed, compensation := saga.compensation, seed := saga.seed, version := saga.version,
          updatedAt := saga.updatedAt, id := saga.id)];
      } else {
        sagas := sagas[saga.id := saga.State()];
      }
      return false;
    }

    method Find(id: string) returns (saga: Saga?)
      ensures id !in sagas ==> saga == null
      ensures id in sagas ==> saga != null && fresh(saga) && saga.State() == sagas[id]
    {
      if id !in sagas {
        return null;
      }
      saga := new Saga.Load(sagas[id]);
    }
  }

  // ----- Messages -----

  datatype Message = Message(
    id: string,
    sagaId: string,
    paymentId: string,
    step: SagaStep,
    operationId: string,
    payload: Payload,
    scheduledAt: int)

  predicate ValidMessage(m: Message) {
    m.id != "" && m.sagaId != "" && m.paymentId != "" && m.scheduledAt != UNSET
  }

  function MessageId(i: Instance): string {
    TaggedId(i.id, StepName(i.currentStep), i.version)
  }

  /** The message that announces an instance's current step. */
  function CurrentMessage(i: Instance, at: int): Message {
    Message(MessageId(i), i.id, i.paymentId, i.currentStep, "", i.payload, at)
  }

  function AsyncMessage(m: Message, operation: AsyncOperation): Message {
    Message(operation.id, m.sagaId, m.paymentId, m.step, operation.id, Operation(operation), operation.scheduledAt)
  }

  lemma StepNameInjective(s: SagaStep, t: SagaStep)
    requires StepName(s) == StepName(t)
    ensures s == t
  {
    assert |StepName(s)| == |StepName(t)|;
    assert StepName(s)[2] == StepName(t)[2];
  }

  // ----- The executor's decisions -----

  /** What a provider answers to one request. */
  datatype Answer = Unavailable | Pending(operations: seq<AsyncOperation>) | Declined | Approved

  /** What the executor makes of a message before it touches the payment. */
  datatype Decision =
    | Rejected
    | Waiting(operations: seq<AsyncOperation>)
    | AlreadyApplied
    | Answered(approved: bool)

  predicate ValidOperation(o: AsyncOperation) {
    o.id != "" && o.paymentId != "" && o.kind != "" && o.scheduledAt != UNSET
  }

  predicate ValidOperations(operations: seq<AsyncOperation>) {
    && (forall i :: 0 <= i < |operations| ==> ValidOperation(operations[i]))
    && (forall i, j :: 0 <= i < j < |operations| ==> operations[i].id != operations[j].id)
  }

  predicate StepAlreadyApplied(p: PaymentState, step: SagaStep, input: Input) {
    match step
    case StepAuthorize => p.authorized == p.amount.amount
    case StepCapture => input.amount > 0 && p.captured >= input.amount
    case StepRefund => input.amount > 0 && p.refunded >= input.amount
    case StepCancel => p.status == Cancelled
  }

  /** Whether the provider is asked at all: operations need a payload, captures and refunds proper money. */
  predicate Askable(m: Message, input: Input) {
    if m.operationId != "" then m.payload != Empty
    else if m.step == StepCapture || m.step == StepRefund then NewMoney(input.amount, input.currency).Ok?
    else true
  }

  /** The executor's decision about the payment that it found. */
  function DecideOn(payment: PaymentState, m: Message, answer: Answer): Decision {
    match Decode(m.payload)
    case None => Rejected
    case Some(input) =>
      if StepAlreadyApplied(payment, m.step, input) then AlreadyApplied
      else if !Askable(m, input) then Rejected
      else
        match answer
        case Unavailable => Rejected
        case Pending(operations) => if ValidOperations(operations) then Waiting(operations) else Rejected
        case Declined => Answered(false)
        case Approved => Answered(true)
  }

  function Decide(payments: Table, m: Message, answer: Answer): Decision {
    match PaymentStore.Find(payments, m.paymentId)
    case Err(_) => Rejected
    case Ok(payment) => DecideOn(payment, m, answer)
  }

  /** The operation that an answer asks for, if any; a capture or refund without proper money is an error. */
  function OpFor(m: Message, approved: bool): Result<Option<Op>, PaymentError>
    requires Decode(m.payload).Some?
  {
    var input := Decode(m.payload).value;
    if !approved then Ok(if m.step == StepAuthorize then Some(Op.Fail) else None)
    else
      match m.step
      case StepAuthorize => Ok(Some(Op.Authorize))
      case StepCancel => Ok(Some(Op.Cancel))
      case StepCapture =>
        if NewMoney(input.amount, input.currency).Ok? then
          Ok(Some(Op.Capture(NewMoney(input.amount, input.currency).value)))
        else Err(NewMoney(input.amount, input.currency).error)
      case StepRefund =>
        if NewMoney(input.amount, input.currency).Ok? then
          Ok(Some(Op.Refund(NewMoney(input.amount, input.currency).value)))
        else Err(NewMoney(input.amount, input.currency).error)
  }

  /** One payment transaction: find, change and save. */
  function Command(payments: Table, id: string, op: Op): Option<Table> {
    match PaymentStore.Find(payments, id)
    case Err(_) => None
    case Ok(payment) =>
      match Apply(payment, op)
      case Err(_) => None
      case Ok(after) =>
        match PaymentStore.Save(payments, after)
        case Err(_) => None
        case Ok(saved) => Some(saved)
  }

  /** The payments after the executor's command, or nothing when it fails. */
  function Applied(payments: Table, m: Message, approved: bool): Option<Table>
    requires Decode(m.payload).Some?
  {
    match OpFor(m, approved)
    case Err(_) => None
    case Ok(None) => Some(payments)
    case Ok(Some(op)) => Command(payments, m.paymentId, op)
  }

  /** The orchestrator's transition of its copy of the instance (orchestrator.go:111-127). */
  function Advanced(i: Instance, step: SagaStep, succeeded: bool, at: int): Result<Instance, SagaError> {
    if i.status == StatusCompensating then
      if !succeeded then Err(InvalidSagaTransition) else AfterCompensationSuccess(i, step, at)
    else if succeeded then AfterSuccess(i, step, at)
    else AfterBeginCompensation(i, at)
  }
}
