/**
 The deterministic provider of internal/provider/deterministic/provider.go: its answer is
 a function of its profile, its seed and the request.
 */
module DeterministicProvider {
  import opened Outcomes
  import opened Payments
  import opened Sagas

  // Durations are counted in nanoseconds.
  const MINUTE := 60_000_000_000

  datatype Provider = Provider(id: string, profile: string, seed: nat)

  function Configure(id: string, profile: string, seed: nat): Provider {
    Provider(id, if profile == "" then "success" else profile, seed)
  }

  predicate ValidSnapshot(p: PaymentState) {
    p.id != "" && p.version != 0 && p.amount.amount > 0 && p.amount.currency != "" &&
      NewMoney(p.amount.amount, p.amount.currency).Ok?
  }

  predicate ValidOperationAmount(p: PaymentState, amount: Money) {
    amount.amount > 0 && amount.currency == p.amount.currency && NewMoney(amount.amount, amount.currency).Ok?
  }

  function PendingAnswer(p: Provider, operation: string, paymentId: string, at: int, minutes: nat): Answer {
    Answer.Pending([AsyncOperation(p.id + ":" + paymentId + ":async", paymentId, operation, "", at + minutes * MINUTE)])
  }

  function ResultOf(p: Provider, operation: string, paymentId: string, at: int): Answer {
    if operation != "authorize" then Approved
    else if p.profile == "seeded" then
      if p.seed % 3 == 1 then Declined
      else if p.seed % 3 == 2 then PendingAnswer(p, operation, paymentId, at, p.seed % 5 + 1)
      else Approved
    else if p.profile == "fail_authorize" then Declined
    else if p.profile == "pending_authorize" then PendingAnswer(p, operation, paymentId, at, 1)
    else Approved
  }

  /** An answer whose operations are not valid is an error. */
  function Validated(answer: Answer): Answer {
    if answer.Pending? && !ValidOperations(answer.operations) then Unavailable else answer
  }

  function Authorization(p: Provider, payment: PaymentState, at: int): Answer {
    if !ValidSnapshot(payment) then Unavailable else Validated(ResultOf(p, "authorize", payment.id, at))
  }

  function Cancellation(p: Provider, payment: PaymentState, at: int): Answer {
    if !ValidSnapshot(payment) then Unavailable else Validated(ResultOf(p, "cancel", payment.id, at))
  }

  /** A capture or a refund. */
  function Movement(p: Provider, operation: string, payment: PaymentState, amount: Money, at: int): Answer {
    if !ValidSnapshot(payment) || !ValidOperationAmount(payment, amount) then Unavailable
    else Validated(ResultOf(p, operation, payment.id, at))
  }

  function Resumption(operation: AsyncOperation): Answer {
    if ValidOperation(operation) then Approved else Unavailable
  }

  /** What the provider is asked for a saga message, and answers. */
  function AnswerTo(p: Provider, m: Message, payment: PaymentState, at: int): Answer
    requires Decode(m.payload).Some?
  {
    var input := Decode(m.payload).value;
    if m.operationId != "" then
      if m.payload.Operation? then Resumption(m.payload.operation) else Unavailable
    else
      match m.step
      case StepAuthorize => Authorization(p, payment, at)
      case StepCapture => Movement(p, "capture", payment, Money(input.amount, input.currency), at)
      case StepRefund => Movement(p, "refund", payment, Money(input.amount, input.currency), at)
      case StepCancel => Cancellation(p, payment, at)
  }
}
