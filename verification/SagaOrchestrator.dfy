/**
 The orchestrator and the payment executor of internal/paymentworkflow/application as
 uninterrupted calls, and the step sequence of the saga model that a delivery performs.
 */
module SagaOrchestrator {
  import opened Outcomes
  import opened Payments
  import opened Sagas
  import opened SagaRuns
  import PaymentStore

  datatype Execution = ExecutionFailed | PendingWith(operations: seq<AsyncOperation>) | Finished(succeeded: bool)

  /** The executor's call in terms of its decisions: the execution and the payments after it. */
  function Executed(payments: PaymentStore.Table, m: Message, answer: Answer): (Execution, PaymentStore.Table) {
    match Decide(payments, m, answer)
    case Rejected => (ExecutionFailed, payments)
    case Waiting(operations) => (PendingWith(operations), payments)
    case AlreadyApplied => (Finished(true), payments)
    case Answered(approved) =>
      if Decode(m.payload).None? then (ExecutionFailed, payments)
      else
        match Applied(payments, m, approved)
        case None => (ExecutionFailed, payments)
        case Some(after) => (Finished(approved), after)
  }

  /** The errors with which the orchestrator's calls end. */
  datatype OrchestratorError =
    | Refused(reason: SagaError)
    | Conflict
    | SagaMissing
    | InvalidMessage
    | NotExecuted
    | CompensationFailed

  /** The error of starting a saga, if there is one. */
  function StartFailure(sagas: SagaTable, id: string, paymentId: string, payload: Payload, seed: nat,
                        at: int): Option<OrchestratorError> {
    match NewInstance(id, paymentId, payload, seed, at)
    case Err(e) => Some(Refused(e))
    case Ok(i) => if SaveSaga(sagas, i) == None then Some(Conflict) else None
  }

  /** The error of carrying a saga on after its step was executed. */
  function ConclusionFailure(sagas: SagaTable, i: Instance, step: SagaStep, succeeded: bool,
                             at: int): Option<OrchestratorError> {
    if i.status == StatusCompensating && !succeeded then Some(CompensationFailed)
    else
      match Advanced(i, step, succeeded, at)
      case Err(e) => Some(Refused(e))
      case Ok(j) =>
        if SaveSaga(sagas, j) == None then Some(Conflict)
        else if Open(j) && !ValidMessage(CurrentMessage(j, at)) then Some(InvalidMessage)
        else None
  }

  /** The error of handling a message, if there is one. */
  function HandleFailure(payments: PaymentStore.Table, sagas: SagaTable, m: Message, answer: Answer,
                         at: int): Option<OrchestratorError> {
    if !ValidMessage(m) then Some(InvalidMessage)
    else if m.sagaId !in sagas then Some(SagaMissing)
    else if !Open(sagas[m.sagaId]) || sagas[m.sagaId].currentStep != m.step then None
    else
      match Executed(payments, m, answer).0
      case ExecutionFailed => Some(NotExecuted)
      case PendingWith(_) => None
      case Finished(succeeded) => ConclusionFailure(sagas, sagas[m.sagaId], m.step, succeeded, at)
  }

  /** The steps of one delivery in a row; those that do not apply change nothing. */
  function HandleSteps(s: Sys, d: nat, m: Message, answer: Answer, at: int): Sys {
    Next(Next(Next(Next(Next(Next(s, Deliver(d, m)), Ask(d, answer)), Pay(d)), SaveAdvanced(d, at)), Publish(d)),
      Drop(d))
  }

  /** The shared part of a state. */
  predicate Tables(s: Sys, payments: PaymentStore.Table, sagas: SagaTable, messages: set<Message>) {
    s.payments == payments && s.sagas == sagas && s.messages == messages
  }

  class Orchestrator {
    const payments: PaymentStore.PaymentRepository
    const store: SagaRepository
    var messages: set<Message>

    constructor ()
      ensures fresh(payments) && fresh(store)
      ensures payments.rows == map[] && store.sagas == map[] && messages == {}
    {
      payments := new PaymentStore.PaymentRepository();
      store := new SagaRepository();
      messages := {};
    }

    method PublishMessage(m: Message) returns (err: Option<OrchestratorError>)
      modifies this
      ensures messages == Published(old(messages), m)
      ensures err == if ValidMessage(m) then None else Some(InvalidMessage)
    {
      if !ValidMessage(m) {
        return Some(InvalidMessage);
      }
      messages := messages + {m};
      return None;
    }

    method StartWithPayload(id: string, paymentId: string, payload: Payload, seed: nat, at: int, ghost s: Sys)
      returns (err: Option<OrchestratorError>)
      requires Tables(s, payments.rows, store.sagas, messages)
      modifies this, store
      ensures err == StartFailure(s.sagas, id, paymentId, payload, seed, at)
      ensures Tables(Next(s, Start(id, paymentId, payload, seed, at, true)), payments.rows, store.sagas, messages)
    {
      var created := NewInstance(id, paymentId, payload, seed, at);
      if created.Err? {
        return Some(Refused(created.error));
      }
      var saga := new Saga.Load(created.value);
      var conflict := store.Save(saga);
      if conflict {
        return Some(Conflict);
      }
      err := PublishMessage(CurrentMessage(saga.State(), at));
    }

    /** One payment transaction. */
    method Change(id: string, op: Op) returns (failed: bool)
      modifies payments
      ensures match Command(old(payments.rows), id, op)
              case Some(after) => payments.rows == after && !failed
              case None => payments.rows == old(payments.rows) && failed
    {
      var payment, missing := payments.FindByID(id);
      if missing.Some? {
        return true;
      }
      var refused := payment.Perform(op);
      if refused.Some? {
        return true;
      }
      var conflict := payments.SavePayment(payment);
      return conflict.Some?;
    }

    /** The payment executor; `answer` is what the provider says if it is asked. */
    method Execute(m: Message, answer: Answer) returns (execution: Execution)
      modifies payments
      ensures (execution, payments.rows) == Executed(old(payments.rows), m, answer)
    {
      var payment, missing := payments.FindByID(m.paymentId);
      if missing.Some? {
        return ExecutionFailed;
      }
      var decoded := Decode(m.payload);
      if decoded.None? {
        return ExecutionFailed;
      }
      var input := decoded.value;
      if StepAlreadyApplied(payment.State(), m.step, input) {
        return Finished(true);
      }
      if !Askable(m, input) {
        return ExecutionFailed;
      }
      match answer
      case Unavailable => return ExecutionFailed;
      case Pending(operations) =>
        if !ValidOperations(operations) {
          return ExecutionFailed;
        }
        return PendingWith(operations);
      case Declined =>
        if m.step == StepAuthorize {
          var failed := Change(m.paymentId, Op.Fail);
          if failed {
            return ExecutionFailed;
          }
        }
        return Finished(false);
      case Approved =>
        var op := OpFor(m, true);
        if op.Err? {
          return ExecutionFailed;
        }
        if op.value.Some? {
          var failed := Change(m.paymentId, op.value.value);
          if failed {
            return ExecutionFailed;
          }
        }
        return Finished(true);
    }

    /** The messages of valid operations are valid, so that each is published. */
    method PublishOperations(m: Message, operations: seq<AsyncOperation>) returns (err: Option<OrchestratorError>)
      requires ValidMessage(m) && ValidOperations(operations)
      modifies this
      ensures err == None && messages == old(messages) + AsyncMessages(m, operations)
    {
      for n := 0 to |operations|
        invariant messages == old(messages) + AsyncMessages(m, operations[..n])
      {
        assert operations[..n + 1] == operations[..n] + [operations[n]];
        assert ValidOperation(operations[n]);
        err := PublishMessage(AsyncMessage(m, operations[n]));
        if err.Some? {
          return;
        }
      }
      assert operations[..|operations|] == operations;
      return None;
    }

    /**
     One delivery of a published message without interruption. Payments, sagas and
     messages are those of the model's steps, and no delivery is left under way.
     */
    method Handle(m: Message, answer: Answer, at: int, ghost s: Sys, ghost d: nat)
      returns (err: Option<OrchestratorError>)
      requires Tables(s, payments.rows, store.sagas, messages) && m in messages && d !in s.deliveries
      modifies this, payments, store
      ensures err == HandleFailure(s.payments, s.sagas, m, answer, at)
      ensures var t := HandleSteps(s, d, m, answer, at);
              Tables(t, payments.rows, store.sagas, messages) && t.deliveries == s.deliveries
    {
      NotDelivered(s, d, answer, at);
      if !ValidMessage(m) {
        return Some(InvalidMessage);
      }
      var saga := store.Find(m.sagaId);
      if saga == null {
        return Some(SagaMissing);
      }
      if saga.status == StatusCompleted || saga.status == StatusFailed {
        return None;
      }
      if saga.currentStep != m.step {
        return None;
      }
      ghost var loaded := s.(deliveries := s.deliveries[d := Delivery(m, saga.State(), Loaded)]);
      assert Next(s, Deliver(d, m)) == loaded;
      err := Proceed(saga, m, answer, at, loaded, d);
      assert loaded.deliveries - {d} == s.deliveries;
    }

    /** The call after the checks: execution, transition, save and publication. */
    method Proceed(saga: Saga, m: Message, answer: Answer, at: int, ghost s: Sys, ghost d: nat)
      returns (err: Option<OrchestratorError>)
      requires Tables(s, payments.rows, store.sagas, messages) && ValidMessage(m)
      requires d in s.deliveries && s.deliveries[d] == Delivery(m, saga.State(), Loaded)
      modifies this, payments, store, saga
      ensures err == match Executed(s.payments, m, answer).0
                     case ExecutionFailed => Some(NotExecuted)
                     case PendingWith(_) => None
                     case Finished(succeeded) => ConclusionFailure(s.sagas, old(saga.State()), m.step, succeeded, at)
      ensures var t := Next(Next(Next(Next(Next(s, Ask(d, answer)), Pay(d)), SaveAdvanced(d, at)), Publish(d)),
              Drop(d));
              Tables(t, payments.rows, store.sagas, messages) && t.deliveries == s.deliveries - {d}
    {
      var execution := Execute(m, answer);
      ghost var t := Next(Next(s, Ask(d, answer)), Pay(d));
      ExecutionSteps(s, d, saga.State(), m, answer);
      if execution == ExecutionFailed {
        NothingFurther(t, d, at);
        return Some(NotExecuted);
      }
      if execution.PendingWith? {
        err := PublishOperations(m, execution.operations);
        NothingFurther(t, d, at);
        return;
      }
      err := Conclude(saga, m, execution.succeeded, at, t, d);
    }

    /** The transition, its save and the next message. */
    method Conclude(saga: Saga, m: Message, succeeded: bool, at: int, ghost s: Sys, ghost d: nat)
      returns (err: Option<OrchestratorError>)
      requires Tables(s, payments.rows, store.sagas, messages)
      requires d in s.deliveries && s.deliveries[d] == Delivery(m, saga.State(), Concluded(succeeded))
      modifies this, store, saga
      ensures err == ConclusionFailure(s.sagas, old(saga.State()), m.step, succeeded, at)
      ensures var t := Next(Next(Next(s, SaveAdvanced(d, at)), Publish(d)), Drop(d));
              Tables(t, payments.rows, store.sagas, messages) && t.deliveries == s.deliveries - {d}
    {
      ConclusionSteps(s, d, saga.State(), m, succeeded, at);
      err := Transition(saga, m.step, succeeded, at);
      if err.Some? {
        return;
      }
      var conflict := store.Save(saga);
      if conflict {
        return Some(Conflict);
      }
      if saga.status == StatusRunning || saga.status == StatusCompensating {
        err := PublishMessage(CurrentMessage(saga.State(), at));
      }
    }

    method Transition(saga: Saga, step: SagaStep, succeeded: bool, at: int) returns (err: Option<OrchestratorError>)
      modifies saga
      ensures match Advanced(old(saga.State()), step, succeeded, at)
              case Ok(i) => saga.State() == i && err == None
              case Err(e) =>
                && saga.State() == old(saga.State())
                && err == Some(if old(saga.status) == StatusCompensating && !succeeded then CompensationFailed
                     else Refused(e))
    {
      var refused;
      if saga.status == StatusCompensating {
        if !succeeded {
          return Some(CompensationFailed);
        }
        refused := saga.ApplyCompensationSuccess(step, at);
      } else if succeeded {
        refused := saga.ApplySuccess(step, at);
      } else {
        refused := saga.BeginCompensation(at);
      }
      return if refused.Some? then Some(Refused(refused.value)) else None;
    }
  }

  /** Asking and paying, in terms of the executor's call. */
  lemma ExecutionSteps(s: Sys, d: nat, i: Instance, m: Message, answer: Answer)
    requires d in s.deliveries && s.deliveries[d] == Delivery(m, i, Loaded)
    ensures var t := Next(Next(s, Ask(d, answer)), Pay(d));
            var (execution, payments) := Executed(s.payments, m, answer);
            && t.payments == payments && t.sagas == s.sagas
            && match execution
               case ExecutionFailed => t.messages == s.messages && t.deliveries == s.deliveries - {d}
               case PendingWith(operations) =>
                 t.messages == s.messages + AsyncMessages(m, operations) && t.deliveries == s.deliveries - {d}
               case Finished(succeeded) =>
                 t.messages == s.messages && t.deliveries == s.deliveries[d := Delivery(m, i, Concluded(succeeded))]
  {
    var asked := Next(s, Ask(d, answer));
    if Decide(s.payments, m, answer).Answered? {
      assert asked.deliveries[d] == Delivery(m, i, Replied(Decide(s.payments, m, answer).approved));
    }
  }

  /** Saving and publishing, in terms of the transition. */
  lemma ConclusionSteps(s: Sys, d: nat, i: Instance, m: Message, succeeded: bool, at: int)
    requires d in s.deliveries && s.deliveries[d] == Delivery(m, i, Concluded(succeeded))
    ensures var t := Next(Next(Next(s, SaveAdvanced(d, at)), Publish(d)), Drop(d));
            && t.payments == s.payments && t.deliveries == s.deliveries - {d}
            && match Advanced(i, m.step, succeeded, at)
               case Err(_) => t.sagas == s.sagas && t.messages == s.messages
               case Ok(j) =>
                 if SaveSaga(s.sagas, j) == None then t.sagas == s.sagas && t.messages == s.messages
                 else t.sagas == SaveSaga(s.sagas, j).value
                      && t.messages == if Open(j) then Published(s.messages, CurrentMessage(j, at)) else s.messages
  {
  }

  lemma NotDelivered(s: Sys, d: nat, answer: Answer, at: int)
    requires d !in s.deliveries
    ensures Next(Next(Next(Next(Next(s, Ask(d, answer)), Pay(d)), SaveAdvanced(d, at)), Publish(d)), Drop(d)) == s
  {
    assert s.deliveries - {d} == s.deliveries;
  }

  lemma NothingFurther(s: Sys, d: nat, at: int)
    requires d !in s.deliveries
    ensures Next(Next(Next(s, SaveAdvanced(d, at)), Publish(d)), Drop(d)) == s
  {
    assert s.deliveries - {d} == s.deliveries;
  }

  /**
   A call that ends with an error leaves every saga as it was, except that an advance
   whose next message cannot be published stays saved. So a message that is retried
   after any other error finds the saga where the first attempt found it.
   */
  lemma FailedHandlingKeepsSagas(s: Sys, d: nat, m: Message, answer: Answer, at: int)
    requires d !in s.deliveries && m in s.messages
    requires HandleFailure(s.payments, s.sagas, m, answer, at).Some? && at != UNSET
    requires forall id :: id in s.sagas ==> s.sagas[id].id == id && id != "" && s.sagas[id].paymentId != ""
    ensures HandleSteps(s, d, m, answer, at).sagas == s.sagas
  {
    NotDelivered(s, d, answer, at);
    if ValidMessage(m) && m.sagaId in s.sagas {
      var i := s.sagas[m.sagaId];
      var loaded := s.(deliveries := s.deliveries[d := Delivery(m, i, Loaded)]);
      assert Next(s, Deliver(d, m)) == loaded;
      ExecutionSteps(loaded, d, i, m, answer);
      var t := Next(Next(loaded, Ask(d, answer)), Pay(d));
      match Executed(s.payments, m, answer).0 {
        case Finished(succeeded) => FailedConclusionKeepsSagas(t, d, i, m, succeeded, at);
        case _ => NothingFurther(t, d, at);
      }
    }
  }

  lemma FailedConclusionKeepsSagas(s: Sys, d: nat, i: Instance, m: Message, succeeded: bool, at: int)
    requires d in s.deliveries && s.deliveries[d] == Delivery(m, i, Concluded(succeeded))
    requires ConclusionFailure(s.sagas, i, m.step, succeeded, at).Some? && at != UNSET && i.id != "" &&
             i.paymentId != ""
    ensures Next(Next(Next(s, SaveAdvanced(d, at)), Publish(d)), Drop(d)).sagas == s.sagas
  {
    var saved := Next(s, SaveAdvanced(d, at));
    assert saved.sagas == s.sagas;
  }
}
