/**
 What one scenario execution computes (internal/replay/application/runner.go), as a
 function of the scenario alone: the world of its in-memory repositories, the effect of
 each command on it, and the result.
 */
module Replay {
  import opened Outcomes
  import opened Ordering
  import opened Payments
  import opened Sagas
  import opened DeterministicProvider
  import opened Scenarios
  import Comparison
  import Jobs

  const ASYNC_JOB_TYPE := "provider.async"
  const SAGA_JOB_TYPE := "saga.step"
  const BATCH_SIZE := 100
  const SCHEDULER_OWNER := "replay"
  const DIRECT_OWNER := "replay-direct"

  type Ledger = map<string, PaymentState>

  /** What a job's payload encodes. */
  datatype Work = ProviderAsync(operation: AsyncOperation) | SagaStepOf(message: Message)

  datatype ScenarioJob = ScenarioJob(job: Jobs.JobState, work: Work)

  datatype World = World(payments: Ledger, sagas: SagaTable, jobs: map<string, ScenarioJob>, now: int)

  // Functions that may fail return no world on an error; the execution then ends.

  // ----- Payments -----

  function AfterChange(w: World, id: string, op: Op): Option<World> {
    if id !in w.payments then None
    else
      match Apply(w.payments[id], op)
      case Err(_) => None
      case Ok(after) => Some(w.(payments := w.payments[id := after]))
  }

  /** A capture or refund checks its money first. */
  function AfterMoneyChange(w: World, id: string, amount: Money, refund: bool): Option<World> {
    match NewMoney(amount.amount, amount.currency)
    case Err(_) => None
    case Ok(money) => AfterChange(w, id, if refund then Op.Refund(money) else Op.Capture(money))
  }

  function AfterCreate(w: World, id: string, amount: Money): Option<World> {
    match NewMoney(amount.amount, amount.currency)
    case Err(_) => None
    case Ok(money) =>
      match New(id, money)
      case Err(_) => None
      case Ok(payment) => if id in w.payments then None else Some(w.(payments := w.payments[id := payment]))
  }

  // ----- Jobs -----

  function AfterEnqueue(w: World, id: string, jobType: string, scheduledAt: int, work: Work): Option<World> {
    match Jobs.NewJob(id, jobType, "", scheduledAt, "", "")
    case Err(_) => None
    case Ok(job) => Some(w.(jobs := w.jobs[id := ScenarioJob(job, work)]))
  }

  function AfterPublish(w: World, m: Message): Option<World> {
    AfterEnqueue(w, m.id, SAGA_JOB_TYPE, m.scheduledAt, SagaStepOf(m))
  }

  function AfterPublishAll(w: World, m: Message, operations: seq<AsyncOperation>): Option<World> {
    if operations == [] then Some(w)
    else
      match AfterPublishAll(w, m, operations[..|operations| - 1])
      case None => None
      case Some(before) => AfterPublish(before, AsyncMessage(m, operations[|operations| - 1]))
  }

  function AfterEnqueueAll(w: World, operations: seq<AsyncOperation>): Option<World> {
    if operations == [] then Some(w)
    else
      match AfterEnqueueAll(w, operations[..|operations| - 1])
      case None => None
      case Some(before) =>
        var o := operations[|operations| - 1];
        AfterEnqueue(before, o.id, ASYNC_JOB_TYPE, o.scheduledAt, ProviderAsync(o))
  }

  // ----- Handlers -----

  /** The saga transition, its save and the next message. */
  function AfterAdvance(w: World, i: Instance, step: SagaStep, succeeded: bool): Option<World> {
    match Advanced(i, step, succeeded, w.now)
    case Err(_) => None
    case Ok(next) =>
      var saved := w.(sagas := w.sagas[next.id := next]);
      if next.status == StatusRunning || next.status == StatusCompensating then
        AfterPublish(saved, CurrentMessage(next, w.now))
      else Some(saved)
  }

  function AfterDecision(w: World, i: Instance, m: Message, decision: Decision): Option<World> {
    match decision
    case Rejected => None
    case Waiting(operations) => AfterPublishAll(w, m, operations)
    case AlreadyApplied => AfterAdvance(w, i, m.step, true)
    case Answered(approved) =>
      if Decode(m.payload).None? then None
      else
        match OpFor(m, approved)
        case Err(_) => None
        case Ok(None) => AfterAdvance(w, i, m.step, approved)
        case Ok(Some(op)) =>
          match AfterChange(w, m.paymentId, op)
          case None => None
          case Some(changed) => AfterAdvance(changed, i, m.step, approved)
  }

  /** One saga message; a finished or moved saga acknowledges it. */
  function AfterMessage(p: Provider, w: World, m: Message): Option<World> {
    if !ValidMessage(m) || m.sagaId !in w.sagas then None
    else
      var i := w.sagas[m.sagaId];
      if i.status == StatusCompleted || i.status == StatusFailed || i.currentStep != m.step then Some(w)
      else if m.paymentId !in w.payments || Decode(m.payload).None? then None
      else
        var payment := w.payments[m.paymentId];
        AfterDecision(w, i, m, DecideOn(payment, m, AnswerTo(p, m, payment, w.now)))
  }

  /** What a provider's answer to a direct command or to a resumed operation does. */
  function AfterAnswer(w: World, kind: CommandType, id: string, amount: Money, answer: Answer): Option<World> {
    match answer
    case Unavailable => None
    case Pending(operations) => AfterEnqueueAll(w, operations)
    case Declined => if kind == AuthorizePayment then AfterChange(w, id, Op.Fail) else None
    case Approved =>
      match kind
      case AuthorizePayment => AfterChange(w, id, Op.Authorize)
      case CancelPayment => AfterChange(w, id, Op.Cancel)
      case CapturePayment => AfterMoneyChange(w, id, amount, false)
      case RefundPayment => AfterMoneyChange(w, id, amount, true)
      case _ => None
  }

  /** A resumed operation carries no amount. */
  function KindOf(operation: AsyncOperation): Option<CommandType> {
    if operation.kind == "authorize" then Some(AuthorizePayment)
    else if operation.kind == "capture" then Some(CapturePayment)
    else if operation.kind == "refund" then Some(RefundPayment)
    else if operation.kind == "cancel" then Some(CancelPayment)
    else None
  }

  function AfterOperation(w: World, operation: AsyncOperation): Option<World> {
    if operation.paymentId !in w.payments then None
    else
      match (Resumption(operation), KindOf(operation))
      case (Approved, Some(kind)) => AfterAnswer(w, kind, operation.paymentId, NO_MONEY, Approved)
      case _ => None
  }

  function AfterWork(p: Provider, w: World, work: Work): Option<World> {
    match work
    case ProviderAsync(operation) => AfterOperation(w, operation)
    case SagaStepOf(m) => AfterMessage(p, w, m)
  }

  // ----- Running jobs -----

  /** Lease, start, handle, complete. */
  function AfterJob(p: Provider, w: World, id: string, owner: string): Option<World> {
    if id !in w.jobs then None
    else
      var entry := w.jobs[id];
      match Jobs.AfterLease(entry.job, owner, w.now + MINUTE)
      case Err(_) => None
      case Ok(leased) =>
        match Jobs.AfterStart(leased)
        case Err(_) => None
        case Ok(started) =>
          match AfterWork(p, w.(jobs := w.jobs[started.id := entry.(job := started)]), entry.work)
          case None => None
          case Some(handled) =>
            match Jobs.AfterComplete(started)
            case Err(_) => None
            case Ok(completed) => Some(handled.(jobs := handled.jobs[completed.id := entry.(job := completed)]))
  }

  /** What jobs are ordered by: their due time, then their id. */
  datatype JobKey = JobKey(nextAttemptAt: int, id: string)

  predicate JobKeyLeq(a: JobKey, b: JobKey) {
    a.nextAttemptAt < b.nextAttemptAt || (a.nextAttemptAt == b.nextAttemptAt && LexLeq(a.id, b.id))
  }

  lemma JobKeyOrder()
    ensures TotalOrder(JobKeyLeq)
  {
    LexIsTotalOrder();
    forall a, b
      ensures JobKeyLeq(a, b) || JobKeyLeq(b, a)
      ensures JobKeyLeq(a, b) && JobKeyLeq(b, a) ==> a == b
    {
      assert LexLeq(a.id, b.id) || LexLeq(b.id, a.id);
    }
    forall a, b, c | JobKeyLeq(a, b) && JobKeyLeq(b, c)
      ensures JobKeyLeq(a, c)
    {
      assert LexLeq(a.id, b.id) && LexLeq(b.id, c.id) ==> LexLeq(a.id, c.id);
    }
  }

  predicate Executable(job: Jobs.JobState, at: int) {
    job.status == Jobs.Pending && job.nextAttemptAt <= at
  }

  /** The keys of the due jobs among some ids. */
  function DueAmong(jobs: map<string, ScenarioJob>, ids: set<string>, at: int): set<JobKey> {
    set id | id in ids && id in jobs && Executable(jobs[id].job, at) :: JobKey(jobs[id].job.nextAttemptAt, id)
  }

  function Truncated(keys: seq<JobKey>, limit: nat): seq<JobKey> {
    if |keys| > limit then keys[..limit] else keys
  }

  /** The batch of due jobs: the first ones by due time and id. */
  ghost function Batch(jobs: map<string, ScenarioJob>, at: int, limit: nat): seq<JobKey> {
    JobKeyOrder();
    Truncated(Listing(DueAmong(jobs, jobs.Keys, at), JobKeyLeq), limit)
  }

  function AfterJobs(p: Provider, w: World, keys: seq<JobKey>): Option<World> {
    if keys == [] then Some(w)
    else
      match AfterJobs(p, w, keys[..|keys| - 1])
      case None => None
      case Some(before) => AfterJob(p, before, keys[|keys| - 1].id, SCHEDULER_OWNER)
  }

  ghost function AfterTick(p: Provider, w: World): Option<World> {
    AfterJobs(p, w, Batch(w.jobs, w.now, BATCH_SIZE))
  }

  // ----- Commands -----

  function AfterStart(w: World, c: Command): Option<World> {
    match NewInstance(SagaIdOf(c.paymentId), c.paymentId, Request(Input(c.amount.amount, c.amount.currency)), 0, w.now)
    case Err(_) => None
    case Ok(i) => AfterPublish(w.(sagas := w.sagas[i.id := i]), CurrentMessage(i, w.now))
  }

  /** The saga's first message and the scheduler's two rounds. */
  ghost function AfterStartSaga(p: Provider, w: World, c: Command): Option<World> {
    match AfterStart(w, c)
    case None => None
    case Some(started) =>
      match AfterTick(p, started)
      case None => None
      case Some(ticked) => AfterTick(p, ticked)
  }

  function AfterExecuteAsync(p: Provider, w: World, c: Command): Option<World> {
    if c.operationId !in w.jobs then None
    else if w.jobs[c.operationId].job.status == Jobs.Pending && w.jobs[c.operationId].job.nextAttemptAt > w.now then
      None
    else AfterJob(p, w, c.operationId, DIRECT_OWNER)
  }

  /** The request of a direct payment command. */
  function DirectAnswer(p: Provider, payment: PaymentState, c: Command, at: int): Answer {
    match c.kind
    case AuthorizePayment => Authorization(p, payment, at)
    case CapturePayment => Movement(p, "capture", payment, c.amount, at)
    case RefundPayment => Movement(p, "refund", payment, c.amount, at)
    case CancelPayment => Cancellation(p, payment, at)
    case _ => Unavailable
  }

  /** The operations that an answer leaves to be executed later. */
  function OperationsOf(answer: Answer): seq<AsyncOperation> {
    if answer.Pending? then answer.operations else []
  }

  function AfterDirect(p: Provider, w: World, c: Command): (Option<World>, seq<AsyncOperation>) {
    if c.paymentId !in w.payments then (None, [])
    else
      var answer := DirectAnswer(p, w.payments[c.paymentId], c, w.now);
      (AfterAnswer(w, c.kind, c.paymentId, c.amount, answer), OperationsOf(answer))
  }

  ghost function AfterCommand(p: Provider, w: World, c: Command): (Option<World>, seq<AsyncOperation>) {
    match c.kind
    case CreatePayment => (AfterCreate(w, c.paymentId, c.amount), [])
    case StartSaga => (AfterStartSaga(p, w, c), [])
    case AdvanceTime => (if c.duration <= 0 then None else Some(w.(now := w.now + c.duration)), [])
    case ExecuteAsync => (AfterExecuteAsync(p, w, c), [])
    case _ => AfterDirect(p, w, c)
  }

  // ----- Scenarios -----

  datatype ReplayError = InvalidScenario(fault: ScenarioError) | ProviderNotFound | CommandFailed(index: nat)

  datatype Outcome = Outcome(world: World, operations: seq<AsyncOperation>)

  function InitialLedger(payments: seq<PaymentState>): Ledger {
    Comparison.IndexPayments(payments)
  }

  function ProviderOf(s: Scenario): Provider {
    Configure(s.providerId, s.profile, s.seed)
  }

  /** The world after the first `n` commands, or the index of the first that failed. */
  ghost function Executed(s: Scenario, n: nat): Result<Outcome, ReplayError>
    requires n <= |s.commands|
  {
    if n == 0 then Ok(Outcome(World(InitialLedger(s.initialPayments), map[], map[], s.initialVirtualTime), []))
    else
      match Executed(s, n - 1)
      case Err(e) => Err(e)
      case Ok(before) =>
        match AfterCommand(ProviderOf(s), before.world, s.commands[n - 1])
        case (None, _) => Err(CommandFailed(n - 1))
        case (Some(world), operations) => Ok(Outcome(world, before.operations + operations))
  }

  ghost function SortedIds(payments: Ledger): seq<string> {
    LexIsTotalOrder();
    Listing(payments.Keys, LexLeq)
  }

  ghost function States(payments: Ledger): (states: seq<PaymentState>)
    ensures |states| == |SortedIds(payments)|
    ensures forall i :: 0 <= i < |states| ==>
              SortedIds(payments)[i] in payments && states[i] == payments[SortedIds(payments)[i]]
  {
    var ids := SortedIds(payments);
    EachOnce(ids, payments.Keys);
    assert forall i :: 0 <= i < |ids| ==> ids[i] in payments.Keys;
    seq(|ids|, i requires 0 <= i < |ids| => payments[ids[i]])
  }

  /** The result of a scenario, given which providers are registered. */
  ghost function Replayed(registered: set<string>, s: Scenario): Result<Comparison.ExecutionResult, ReplayError> {
    if ScenarioFault(s).Some? then Err(ReplayError.InvalidScenario(ScenarioFault(s).value))
    else if s.providerId !in registered then Err(ProviderNotFound)
    else
      match Executed(s, |s.commands|)
      case Err(e) => Err(e)
      case Ok(outcome) =>
        Ok(Comparison.ExecutionResult(States(outcome.world.payments), outcome.world.now, outcome.operations))
  }
}
