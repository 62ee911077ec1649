/**
 Initial payments without a proper currency, which scenario validation lets through: the
 provider refuses them, and no successful replay changes one of them.
 */
module ReplayCurrencies {
  import opened Outcomes
  import opened Payments
  import opened Sagas
  import opened DeterministicProvider
  import opened Scenarios
  import opened Replay
  import opened ReplayTheorems
  import Comparison
  import Jobs

  /** The payment of an id has a proper currency, if there is one. */
  predicate ProperAt(payments: Ledger, id: string) {
    id in payments ==> ValidCurrency(payments[id].amount.currency)
  }

  /** Operations are only ever announced for payments that the provider accepted. */
  predicate WorkProper(payments: Ledger, work: Work) {
    match work
    case ProviderAsync(operation) => ProperAt(payments, operation.paymentId)
    case SagaStepOf(m) => m.operationId != "" ==> ProperAt(payments, m.paymentId)
  }

  ghost predicate LedgerFine(initial: seq<PaymentState>, payments: Ledger) {
    forall id :: id in payments ==>
      payments[id].id == id && (ValidCurrency(payments[id].amount.currency) || payments[id] in initial)
  }

  ghost predicate JobsFine(payments: Ledger, jobs: map<string, ScenarioJob>) {
    forall id :: id in jobs ==> WorkProper(payments, jobs[id].work)
  }

  /** A payment without a proper currency is as it was initially. */
  ghost predicate Fine(initial: seq<PaymentState>, w: World) {
    match w
    case World(payments, _, jobs, _) => LedgerFine(initial, payments) && JobsFine(payments, jobs)
  }

  lemma ChangeFine(initial: seq<PaymentState>, w: World, id: string, op: Op)
    requires Fine(initial, w) && ProperAt(w.payments, id) && AfterChange(w, id, op).Some?
    ensures Fine(initial, AfterChange(w, id, op).value)
  {
    var t := AfterChange(w, id, op).value;
    VersionMoves(w.payments[id], op);
    forall j | j in t.jobs
      ensures WorkProper(t.payments, t.jobs[j].work)
    {
      assert WorkProper(w.payments, w.jobs[j].work);
    }
  }

  lemma CreateFine(initial: seq<PaymentState>, w: World, id: string, amount: Money)
    requires Fine(initial, w) && AfterCreate(w, id, amount).Some?
    ensures Fine(initial, AfterCreate(w, id, amount).value)
  {
    var t := AfterCreate(w, id, amount).value;
    forall j | j in t.jobs
      ensures WorkProper(t.payments, t.jobs[j].work)
    {
      assert WorkProper(w.payments, w.jobs[j].work);
    }
  }

  lemma EnqueueFine(initial: seq<PaymentState>, w: World, id: string, jobType: string, scheduledAt: int, work: Work)
    requires Fine(initial, w) && WorkProper(w.payments, work) && AfterEnqueue(w, id, jobType, scheduledAt, work).Some?
    ensures Fine(initial, AfterEnqueue(w, id, jobType, scheduledAt, work).value)
    ensures AfterEnqueue(w, id, jobType, scheduledAt, work).value.payments == w.payments
  {
  }

  lemma {:induction false} PublishAllFine(initial: seq<PaymentState>, w: World, m: Message,
                                          operations: seq<AsyncOperation>)
    requires Fine(initial, w) && ProperAt(w.payments, m.paymentId) && AfterPublishAll(w, m, operations).Some?
    ensures Fine(initial, AfterPublishAll(w, m, operations).value)
    ensures AfterPublishAll(w, m, operations).value.payments == w.payments
  {
    if operations != [] {
      PublishAllFine(initial, w, m, operations[..|operations| - 1]);
      var next := AsyncMessage(m, operations[|operations| - 1]);
      EnqueueFine(initial, AfterPublishAll(w, m, operations[..|operations| - 1]).value, next.id, SAGA_JOB_TYPE,
        next.scheduledAt, SagaStepOf(next));
    }
  }

  lemma {:induction false} EnqueueAllFine(initial: seq<PaymentState>, w: World, operations: seq<AsyncOperation>)
    requires Fine(initial, w) && AfterEnqueueAll(w, operations).Some?
    requires forall i :: 0 <= i < |operations| ==> ProperAt(w.payments, operations[i].paymentId)
    ensures Fine(initial, AfterEnqueueAll(w, operations).value)
    ensures AfterEnqueueAll(w, operations).value.payments == w.payments
  {
    if operations != [] {
      var o := operations[|operations| - 1];
      EnqueueAllFine(initial, w, operations[..|operations| - 1]);
      EnqueueFine(initial, AfterEnqueueAll(w, operations[..|operations| - 1]).value, o.id, ASYNC_JOB_TYPE,
        o.scheduledAt, ProviderAsync(o));
    }
  }

  lemma AdvanceFine(initial: seq<PaymentState>, w: World, i: Instance, step: SagaStep, succeeded: bool)
    requires Fine(initial, w) && AfterAdvance(w, i, step, succeeded).Some?
    ensures Fine(initial, AfterAdvance(w, i, step, succeeded).value)
  {
    var next := Advanced(i, step, succeeded, w.now).value;
    var saved := w.(sagas := w.sagas[next.id := next]);
    if next.status == StatusRunning || next.status == StatusCompensating {
      var m := CurrentMessage(next, w.now);
      EnqueueFine(initial, saved, m.id, SAGA_JOB_TYPE, m.scheduledAt, SagaStepOf(m));
    }
  }

  lemma DecisionFine(initial: seq<PaymentState>, w: World, i: Instance, m: Message, decision: Decision)
    requires Fine(initial, w) && AfterDecision(w, i, m, decision).Some?
    requires decision.AlreadyApplied? || ProperAt(w.payments, m.paymentId)
    ensures Fine(initial, AfterDecision(w, i, m, decision).value)
  {
    match decision
    case Rejected =>
    case Waiting(operations) => PublishAllFine(initial, w, m, operations);
    case AlreadyApplied => AdvanceFine(initial, w, i, m.step, true);
    case Answered(approved) =>
      match OpFor(m, approved) {
        case Ok(Some(op)) =>
          ChangeFine(initial, w, m.paymentId, op);
          AdvanceFine(initial, AfterChange(w, m.paymentId, op).value, i, m.step, approved);
        case Ok(None) => AdvanceFine(initial, w, i, m.step, approved);
        case Err(_) =>
      }
  }

  /** The provider answers only for payments with a proper currency. */
  lemma AnswerMeansProper(p: Provider, m: Message, payment: PaymentState, at: int)
    requires Decode(m.payload).Some? && m.operationId == "" && !AnswerTo(p, m, payment, at).Unavailable?
    ensures ValidCurrency(payment.amount.currency)
  {
  }

  lemma MessageFine(initial: seq<PaymentState>, p: Provider, w: World, m: Message)
    requires Fine(initial, w) && WorkProper(w.payments, SagaStepOf(m)) && AfterMessage(p, w, m).Some?
    ensures Fine(initial, AfterMessage(p, w, m).value)
  {
    var i := w.sagas[m.sagaId];
    if i.status != StatusCompleted && i.status != StatusFailed && i.currentStep == m.step {
      var payment := w.payments[m.paymentId];
      var answer := AnswerTo(p, m, payment, w.now);
      if m.operationId == "" && !answer.Unavailable? {
        AnswerMeansProper(p, m, payment, w.now);
      }
      DecisionFine(initial, w, i, m, DecideOn(payment, m, answer));
    }
  }

  lemma AnswerFine(initial: seq<PaymentState>, w: World, kind: CommandType, id: string, amount: Money, answer: Answer)
    requires Fine(initial, w) && AfterAnswer(w, kind, id, amount, answer).Some?
    requires ProperAt(w.payments, id) &&
             forall i :: 0 <= i < |OperationsOf(answer)| ==> OperationsOf(answer)[i].paymentId == id
    ensures Fine(initial, AfterAnswer(w, kind, id, amount, answer).value)
  {
    match answer
    case Pending(operations) =>
      assert operations == OperationsOf(answer);
      forall i | 0 <= i < |operations|
        ensures ProperAt(w.payments, operations[i].paymentId)
      {
        assert OperationsOf(answer)[i].paymentId == id;
      }
      EnqueueAllFine(initial, w, operations);
    case Declined => ChangeFine(initial, w, id, Op.Fail);
    case Approved =>
      match kind {
        case AuthorizePayment => ChangeFine(initial, w, id, Op.Authorize);
        case CancelPayment => ChangeFine(initial, w, id, Op.Cancel);
        case CapturePayment => ChangeFine(initial, w, id, Op.Capture(NewMoney(amount.amount, amount.currency).value));
        case RefundPayment => ChangeFine(initial, w, id, Op.Refund(NewMoney(amount.amount, amount.currency).value));
        case _ =>
      }
    case Unavailable =>
  }

  lemma WorkFine(initial: seq<PaymentState>, p: Provider, w: World, work: Work)
    requires Fine(initial, w) && WorkProper(w.payments, work) && AfterWork(p, w, work).Some?
    ensures Fine(initial, AfterWork(p, w, work).value)
  {
    match work
    case ProviderAsync(operation) =>
      AnswerFine(initial, w, KindOf(operation).value, operation.paymentId, NO_MONEY, Approved);
    case SagaStepOf(m) => MessageFine(initial, p, w, m);
  }

  lemma ReplacedJobFine(initial: seq<PaymentState>, w: World, id: string, entry: ScenarioJob)
    requires Fine(initial, w) && WorkProper(w.payments, entry.work)
    ensures Fine(initial, w.(jobs := w.jobs[id := entry]))
  {
  }

  /** A job's work stays proper while payments change: no payment gets an improper currency. */
  lemma WorkStaysProper(p: Provider, w: World, work: Work)
    requires WorkProper(w.payments, work) && AfterWork(p, w, work).Some?
    ensures WorkProper(AfterWork(p, w, work).value.payments, work)
  {
    WorkChanges(p, w, work);
    var (id, t) := (PaymentOf(work), AfterWork(p, w, work).value);
    if id in w.payments {
      var ops :| Accepts(w.payments[id], ops) && Exec(w.payments[id], ops) == t.payments[id];
      ExecKeepsIdentity(w.payments[id], ops);
    }
  }

  lemma JobFine(initial: seq<PaymentState>, p: Provider, w: World, id: string, owner: string)
    requires Fine(initial, w) && AfterJob(p, w, id, owner).Some?
    ensures Fine(initial, AfterJob(p, w, id, owner).value)
  {
    var entry := w.jobs[id];
    assert WorkProper(w.payments, entry.work);
    var started := Jobs.AfterStart(Jobs.AfterLease(entry.job, owner, w.now + MINUTE).value).value;
    var running := w.(jobs := w.jobs[started.id := entry.(job := started)]);
    ReplacedJobFine(initial, w, started.id, entry.(job := started));
    WorkFine(initial, p, running, entry.work);
    WorkStaysProper(p, running, entry.work);
    var completed := Jobs.AfterComplete(started).value;
    ReplacedJobFine(initial, AfterWork(p, running, entry.work).value, completed.id, entry.(job := completed));
  }

  lemma {:induction false} JobsStayFine(initial: seq<PaymentState>, p: Provider, w: World, keys: seq<JobKey>)
    requires Fine(initial, w) && AfterJobs(p, w, keys).Some?
    ensures Fine(initial, AfterJobs(p, w, keys).value)
  {
    if keys != [] {
      JobsStayFine(initial, p, w, keys[..|keys| - 1]);
      JobFine(initial, p, AfterJobs(p, w, keys[..|keys| - 1]).value, keys[|keys| - 1].id, SCHEDULER_OWNER);
    }
  }

  lemma StartFine(initial: seq<PaymentState>, w: World, c: Command)
    requires Fine(initial, w) && AfterStart(w, c).Some?
    ensures Fine(initial, AfterStart(w, c).value)
  {
    var i := NewInstance(SagaIdOf(c.paymentId), c.paymentId, Request(Input(c.amount.amount, c.amount.currency)), 0,
        w.now).value;
    var m := CurrentMessage(i, w.now);
    EnqueueFine(initial, w.(sagas := w.sagas[i.id := i]), m.id, SAGA_JOB_TYPE, m.scheduledAt, SagaStepOf(m));
  }

  lemma StartSagaFine(initial: seq<PaymentState>, p: Provider, w: World, c: Command)
    requires Fine(initial, w) && AfterStartSaga(p, w, c).Some?
    ensures Fine(initial, AfterStartSaga(p, w, c).value)
  {
    var started := AfterStart(w, c).value;
    StartFine(initial, w, c);
    var ticked := AfterTick(p, started).value;
    JobsStayFine(initial, p, started, Batch(started.jobs, started.now, BATCH_SIZE));
    JobsStayFine(initial, p, ticked, Batch(ticked.jobs, ticked.now, BATCH_SIZE));
  }

  lemma DirectFine(initial: seq<PaymentState>, p: Provider, w: World, c: Command)
    requires Fine(initial, w) && AfterDirect(p, w, c).0.Some?
    ensures Fine(initial, AfterDirect(p, w, c).0.value)
  {
    var payment := w.payments[c.paymentId];
    var answer := DirectAnswer(p, payment, c, w.now);
    DirectMeansProper(p, payment, c, w.now);
    AnswerFine(initial, w, c.kind, c.paymentId, c.amount, answer);
  }

  lemma DirectMeansProper(p: Provider, payment: PaymentState, c: Command, at: int)
    requires !DirectAnswer(p, payment, c, at).Unavailable?
    ensures ValidCurrency(payment.amount.currency)
    ensures var operations := OperationsOf(DirectAnswer(p, payment, c, at));
            forall i :: 0 <= i < |operations| ==> operations[i].paymentId == payment.id
  {
  }

  lemma CommandFine(initial: seq<PaymentState>, p: Provider, w: World, c: Command)
    requires Fine(initial, w) && AfterCommand(p, w, c).0.Some?
    ensures Fine(initial, AfterCommand(p, w, c).0.value)
  {
    match c.kind
    case CreatePayment => CreateFine(initial, w, c.paymentId, c.amount);
    case StartSaga => StartSagaFine(initial, p, w, c);
    case AdvanceTime =>
    case ExecuteAsync => JobFine(initial, p, w, c.operationId, DIRECT_OWNER);
    case _ => DirectFine(initial, p, w, c);
  }

  lemma {:induction false} LedgerStartsFine(payments: seq<PaymentState>, initial: seq<PaymentState>)
    requires forall i :: 0 <= i < |payments| ==> payments[i] in initial
    ensures LedgerFine(initial, InitialLedger(payments))
  {
    if payments != [] {
      LedgerStartsFine(payments[..|payments| - 1], initial);
      assert payments[|payments| - 1] in initial;
    }
  }

  /** At every moment of a replay, a payment without a proper currency is one of the initial payments, unchanged. */
  lemma {:induction false} ImproperStays(s: Scenario, n: nat)
    requires n <= |s.commands| && Executed(s, n).Ok?
    ensures Fine(s.initialPayments, Executed(s, n).value.world)
  {
    if n == 0 {
      LedgerStartsFine(s.initialPayments, s.initialPayments);
    } else {
      ImproperStays(s, n - 1);
      CommandFine(s.initialPayments, ProviderOf(s), Executed(s, n - 1).value.world, s.commands[n - 1]);
    }
  }
}
