/**
 What a whole replay captures and refunds: for a payment that no saga of the scenario is
 over, exactly the amounts of the scenario's own commands.
 */
module ReplaySums {
  import opened Outcomes
  import opened Payments
  import opened Sagas
  import opened DeterministicProvider
  import opened Scenarios
  import opened Replay
  import opened ReplayTheorems
  import opened ReplayCommands
  import Comparison
  import Jobs

  /** The captured and refunded amounts of a payment; nothing while there is none. */
  function SumsOf(payments: Ledger, id: string): (int, int) {
    if id in payments then (payments[id].captured, payments[id].refunded) else (0, 0)
  }

  /** What a command asks to add to them. */
  function AskedBy(c: Command, id: string): (int, int) {
    if c.paymentId != id then (0, 0)
    else if c.kind == CapturePayment then (c.amount.amount, 0)
    else if c.kind == RefundPayment then (0, c.amount.amount)
    else (0, 0)
  }

  function Plus(a: (int, int), b: (int, int)): (int, int) {
    (a.0 + b.0, a.1 + b.1)
  }

  /** What the first `n` commands ask to add. */
  function AskedByAll(commands: seq<Command>, n: nat, id: string): (int, int)
    requires n <= |commands|
  {
    if n == 0 then (0, 0) else Plus(AskedByAll(commands, n - 1, id), AskedBy(commands[n - 1], id))
  }

  // ----- No saga over the payment -----

  ghost predicate SagasApart(sagas: SagaTable, id: string) {
    forall s :: s in sagas ==> sagas[s].paymentId != id
  }

  predicate WorkApart(work: Work, id: string) {
    work.SagaStepOf? ==> work.message.paymentId != id
  }

  ghost predicate JobsApart(jobs: map<string, ScenarioJob>, id: string) {
    forall j :: j in jobs ==> WorkApart(jobs[j].work, id)
  }

  ghost predicate Apart(w: World, id: string) {
    match w
    case World(_, sagas, jobs, _) => SagasApart(sagas, id) && JobsApart(jobs, id)
  }

  predicate SameSums(before: World, after: World, id: string) {
    SumsOf(after.payments, id) == SumsOf(before.payments, id)
  }

  lemma EnqueueApart(w: World, key: string, jobType: string, scheduledAt: int, work: Work, id: string)
    requires Apart(w, id) && WorkApart(work, id) && AfterEnqueue(w, key, jobType, scheduledAt, work).Some?
    ensures Apart(AfterEnqueue(w, key, jobType, scheduledAt, work).value, id)
  {
  }

  lemma {:induction false} PublishAllApart(w: World, m: Message, operations: seq<AsyncOperation>, id: string)
    requires Apart(w, id) && m.paymentId != id && AfterPublishAll(w, m, operations).Some?
    ensures Apart(AfterPublishAll(w, m, operations).value, id)
  {
    if operations != [] {
      PublishAllApart(w, m, operations[..|operations| - 1], id);
      var next := AsyncMessage(m, operations[|operations| - 1]);
      EnqueueApart(AfterPublishAll(w, m, operations[..|operations| - 1]).value, next.id, SAGA_JOB_TYPE,
        next.scheduledAt, SagaStepOf(next), id);
    }
  }

  lemma {:induction false} EnqueueAllApart(w: World, operations: seq<AsyncOperation>, id: string)
    requires Apart(w, id) && AfterEnqueueAll(w, operations).Some?
    ensures Apart(AfterEnqueueAll(w, operations).value, id)
  {
    if operations != [] {
      var o := operations[|operations| - 1];
      EnqueueAllApart(w, operations[..|operations| - 1], id);
      EnqueueApart(AfterEnqueueAll(w, operations[..|operations| - 1]).value, o.id, ASYNC_JOB_TYPE, o.scheduledAt,
        ProviderAsync(o), id);
    }
  }

  lemma AdvanceApart(w: World, i: Instance, step: SagaStep, succeeded: bool, id: string)
    requires Apart(w, id) && i.paymentId != id && AfterAdvance(w, i, step, succeeded).Some?
    ensures Apart(AfterAdvance(w, i, step, succeeded).value, id)
  {
    var next := Advanced(i, step, succeeded, w.now).value;
    AdvancedKeepsPayment(i, step, succeeded, w.now);
    var saved := w.(sagas := w.sagas[next.id := next]);
    if next.status == StatusRunning || next.status == StatusCompensating {
      var m := CurrentMessage(next, w.now);
      EnqueueApart(saved, m.id, SAGA_JOB_TYPE, m.scheduledAt, SagaStepOf(m), id);
    }
  }

  lemma AdvancedKeepsPayment(i: Instance, step: SagaStep, succeeded: bool, at: int)
    requires Advanced(i, step, succeeded, at).Ok?
    ensures Advanced(i, step, succeeded, at).value.paymentId == i.paymentId
  {
  }

  lemma DecisionApart(w: World, i: Instance, m: Message, decision: Decision, id: string)
    requires Apart(w, id) && i.paymentId != id && m.paymentId != id && AfterDecision(w, i, m, decision).Some?
    ensures Apart(AfterDecision(w, i, m, decision).value, id)
  {
    match decision
    case Rejected =>
    case Waiting(operations) => PublishAllApart(w, m, operations, id);
    case AlreadyApplied => AdvanceApart(w, i, m.step, true, id);
    case Answered(approved) =>
      match OpFor(m, approved) {
        case Ok(Some(op)) => AdvanceApart(AfterChange(w, m.paymentId, op).value, i, m.step, approved, id);
        case Ok(None) => AdvanceApart(w, i, m.step, approved, id);
        case Err(_) =>
      }
  }

  lemma MessageApart(p: Provider, w: World, m: Message, id: string)
    requires Apart(w, id) && m.paymentId != id && AfterMessage(p, w, m).Some?
    ensures Apart(AfterMessage(p, w, m).value, id)
  {
    var i := w.sagas[m.sagaId];
    if i.status != StatusCompleted && i.status != StatusFailed && i.currentStep == m.step {
      var payment := w.payments[m.paymentId];
      DecisionApart(w, i, m, DecideOn(payment, m, AnswerTo(p, m, payment, w.now)), id);
    }
  }

  /** Jobs of other payments' sagas leave the amounts alone, and announced operations move no money. */
  lemma WorkKeepsSums(p: Provider, w: World, work: Work, id: string)
    requires Apart(w, id) && WorkApart(work, id) && AfterWork(p, w, work).Some?
    ensures Apart(AfterWork(p, w, work).value, id) && SameSums(w, AfterWork(p, w, work).value, id)
  {
    match work
    case ProviderAsync(operation) => OperationResumes(w, operation);
    case SagaStepOf(m) =>
      MessageApart(p, w, m, id);
      WorkChanges(p, w, work);
  }

  lemma ReplacedJobApart(w: World, key: string, entry: ScenarioJob, id: string)
    requires Apart(w, id) && WorkApart(entry.work, id)
    ensures Apart(w.(jobs := w.jobs[key := entry]), id)
  {
  }

  lemma JobKeepsSums(p: Provider, w: World, key: string, owner: string, id: string)
    requires Apart(w, id) && AfterJob(p, w, key, owner).Some?
    ensures Apart(AfterJob(p, w, key, owner).value, id) && SameSums(w, AfterJob(p, w, key, owner).value, id)
  {
    var entry := w.jobs[key];
    assert WorkApart(entry.work, id);
    var started := Jobs.AfterStart(Jobs.AfterLease(entry.job, owner, w.now + MINUTE).value).value;
    var running := w.(jobs := w.jobs[started.id := entry.(job := started)]);
    ReplacedJobApart(w, started.id, entry.(job := started), id);
    WorkKeepsSums(p, running, entry.work, id);
    var completed := Jobs.AfterComplete(started).value;
    ReplacedJobApart(AfterWork(p, running, entry.work).value, completed.id, entry.(job := completed), id);
  }

  lemma {:induction false} JobsKeepSums(p: Provider, w: World, keys: seq<JobKey>, id: string)
    requires Apart(w, id) && AfterJobs(p, w, keys).Some?
    ensures Apart(AfterJobs(p, w, keys).value, id) && SameSums(w, AfterJobs(p, w, keys).value, id)
  {
    if keys != [] {
      JobsKeepSums(p, w, keys[..|keys| - 1], id);
      JobKeepsSums(p, AfterJobs(p, w, keys[..|keys| - 1]).value, keys[|keys| - 1].id, SCHEDULER_OWNER, id);
    }
  }

  lemma StartApart(w: World, c: Command, id: string)
    requires Apart(w, id) && c.paymentId != id && AfterStart(w, c).Some?
    ensures Apart(AfterStart(w, c).value, id) && SameSums(w, AfterStart(w, c).value, id)
  {
    var i := NewInstance(SagaIdOf(c.paymentId), c.paymentId, Request(Input(c.amount.amount, c.amount.currency)), 0,
        w.now).value;
    var m := CurrentMessage(i, w.now);
    EnqueueApart(w.(sagas := w.sagas[i.id := i]), m.id, SAGA_JOB_TYPE, m.scheduledAt, SagaStepOf(m), id);
  }

  lemma StartSagaKeepsSums(p: Provider, w: World, c: Command, id: string)
    requires Apart(w, id) && c.paymentId != id && AfterStartSaga(p, w, c).Some?
    ensures Apart(AfterStartSaga(p, w, c).value, id) && SameSums(w, AfterStartSaga(p, w, c).value, id)
  {
    var started := AfterStart(w, c).value;
    StartApart(w, c, id);
    var ticked := AfterTick(p, started).value;
    JobsKeepSums(p, started, Batch(started.jobs, started.now, BATCH_SIZE), id);
    JobsKeepSums(p, ticked, Batch(ticked.jobs, ticked.now, BATCH_SIZE), id);
  }

  lemma AnswerApart(w: World, kind: CommandType, key: string, amount: Money, answer: Answer, id: string)
    requires Apart(w, id) && AfterAnswer(w, kind, key, amount, answer).Some?
    ensures Apart(AfterAnswer(w, kind, key, amount, answer).value, id)
  {
    if answer.Pending? {
      EnqueueAllApart(w, answer.operations, id);
    }
  }

  lemma PaysSums(p: Provider, before: Ledger, after: Ledger, c: Command, id: string)
    requires Pays(p, before, after, c)
    ensures SumsOf(after, id) == Plus(SumsOf(before, id), AskedBy(c, id))
  {
  }

  /** The amounts grow by what the command asks. */
  ghost predicate Adds(before: World, after: World, c: Command, id: string) {
    Apart(after, id) && SumsOf(after.payments, id) == Plus(SumsOf(before.payments, id), AskedBy(c, id))
  }

  ghost predicate OwnIds(payments: Ledger) {
    forall k :: k in payments ==> payments[k].id == k
  }

  lemma DirectSums(p: Provider, w: World, c: Command, id: string)
    requires Apart(w, id) && Direct(c.kind) && AfterCommand(p, w, c).0.Some? && OwnIds(w.payments)
    ensures Adds(w, AfterCommand(p, w, c).0.value, c, id)
  {
    AnswerApart(w, c.kind, c.paymentId, c.amount, DirectAnswer(p, w.payments[c.paymentId], c, w.now), id);
    DirectCommand(p, w, c);
    PaysSums(p, w.payments, AfterCommand(p, w, c).0.value.payments, c, id);
  }

  lemma OtherSums(before: World, after: World, c: Command, id: string)
    requires Apart(after, id) && SameSums(before, after, id) && !Direct(c.kind)
    ensures Adds(before, after, c, id)
  {
  }

  lemma CreateSums(w: World, key: string, amount: Money, id: string)
    requires Apart(w, id) && AfterCreate(w, key, amount).Some?
    ensures Apart(AfterCreate(w, key, amount).value, id) && SameSums(w, AfterCreate(w, key, amount).value, id)
  {
  }

  lemma CommandSums(p: Provider, w: World, c: Command, id: string)
    requires Apart(w, id) && AfterCommand(p, w, c).0.Some? && !(c.kind == StartSaga && c.paymentId == id)
    requires OwnIds(w.payments)
    ensures Adds(w, AfterCommand(p, w, c).0.value, c, id)
  {
    if Direct(c.kind) {
      DirectSums(p, w, c, id);
    } else {
      OtherCommandSums(p, w, c, id);
      OtherSums(w, AfterCommand(p, w, c).0.value, c, id);
    }
  }

  lemma OtherCommandSums(p: Provider, w: World, c: Command, id: string)
    requires Apart(w, id) && AfterCommand(p, w, c).0.Some? && !(c.kind == StartSaga && c.paymentId == id)
    requires !Direct(c.kind)
    ensures Apart(AfterCommand(p, w, c).0.value, id) && SameSums(w, AfterCommand(p, w, c).0.value, id)
  {
    match c.kind
    case CreatePayment => CreateSums(w, c.paymentId, c.amount, id);
    case StartSaga => StartSagaKeepsSums(p, w, c, id);
    case AdvanceTime =>
    case ExecuteAsync => JobKeepsSums(p, w, c.operationId, DIRECT_OWNER, id);
    case _ =>
  }

  // ----- Whole replays -----

  lemma LedgerIds(s: Scenario, n: nat)
    requires ScenarioFault(s) == None && n <= |s.commands| && Executed(s, n).Ok?
    ensures OwnIds(Executed(s, n).value.world.payments)
  {
    ExecutionIsGrounded(s, n);
    var payments := Executed(s, n).value.world.payments;
    forall k | k in payments
      ensures payments[k].id == k
    {
      GroundedIsCounted(s, n, k, payments[k]);
    }
  }

  /** No command among the first `n` starts a saga over the payment. */
  predicate NoSagaOver(s: Scenario, n: nat, id: string)
    requires n <= |s.commands|
  {
    forall i :: 0 <= i < n ==> !(s.commands[i].kind == StartSaga && s.commands[i].paymentId == id)
  }

  /** Initial amounts and those that the first `n` commands ask to add. */
  function Expected(s: Scenario, n: nat, id: string): (int, int)
    requires n <= |s.commands|
  {
    Plus(SumsOf(InitialLedger(s.initialPayments), id), AskedByAll(s.commands, n, id))
  }

  ghost predicate Summed(s: Scenario, n: nat, id: string, reached: Result<Outcome, ReplayError>)
    requires n <= |s.commands|
  {
    match reached
    case Ok(outcome) => Apart(outcome.world, id) && SumsOf(outcome.world.payments, id) == Expected(s, n, id)
    case Err(_) => true
  }

  lemma SummedAtStart(s: Scenario, id: string)
    ensures Summed(s, 0, id, Executed(s, 0))
  {
  }

  lemma PlusPlus(a: (int, int), b: (int, int), c: (int, int))
    ensures Plus(Plus(a, b), c) == Plus(a, Plus(b, c))
  {
  }

  lemma ExpectedNext(s: Scenario, n: nat, id: string)
    requires n < |s.commands|
    ensures Expected(s, n + 1, id) == Plus(Expected(s, n, id), AskedBy(s.commands[n], id))
  {
    var initial, asked := SumsOf(InitialLedger(s.initialPayments), id), AskedByAll(s.commands, n, id);
    assert AskedByAll(s.commands, n + 1, id) == Plus(asked, AskedBy(s.commands[n], id));
    PlusPlus(initial, asked, AskedBy(s.commands[n], id));
  }

  lemma SummedNext(s: Scenario, n: nat, id: string, before: Outcome, after: Outcome)
    requires n < |s.commands| && Summed(s, n, id, Ok(before)) && OwnIds(before.world.payments)
    requires !(s.commands[n].kind == StartSaga && s.commands[n].paymentId == id)
    requires AfterCommand(ProviderOf(s), before.world, s.commands[n]).0 == Some(after.world)
    ensures Summed(s, n + 1, id, Ok(after))
  {
    CommandSums(ProviderOf(s), before.world, s.commands[n], id);
    ExpectedNext(s, n, id);
  }

  lemma EarlierSucceeded(s: Scenario, n: nat)
    requires n < |s.commands| && Executed(s, n + 1).Ok?
    ensures Executed(s, n).Ok?
    ensures AfterCommand(ProviderOf(s), Executed(s, n).value.world, s.commands[n]).0 ==
            Some(Executed(s, n + 1).value.world)
  {
  }

  lemma {:induction false} AlwaysSummed(s: Scenario, n: nat, id: string)
    requires ScenarioFault(s) == None && n <= |s.commands| && NoSagaOver(s, n, id)
    ensures Summed(s, n, id, Executed(s, n))
  {
    if n == 0 {
      SummedAtStart(s, id);
    } else if Executed(s, n).Ok? {
      AlwaysSummed(s, n - 1, id);
      EarlierSucceeded(s, n - 1);
      LedgerIds(s, n - 1);
      SummedNext(s, n - 1, id, Executed(s, n - 1).value, Executed(s, n).value);
    }
  }

  /**
   The result of a replay lists every payment that no saga is over with the captured and
   refunded amounts that it had initially, and those of the scenario's captures and refunds.
   */
  lemma AmountsAreTheSums(registered: set<string>, s: Scenario, i: nat)
    requires Replayed(registered, s).Ok? && i < |Replayed(registered, s).value.payments|
    requires NoSagaOver(s, |s.commands|, Replayed(registered, s).value.payments[i].id)
    ensures var payment := Replayed(registered, s).value.payments[i];
            (payment.captured, payment.refunded) ==
            Plus(SumsOf(InitialLedger(s.initialPayments), payment.id), AskedByAll(s.commands, |s.commands|, payment.id))
  {
    var payment, n := Replayed(registered, s).value.payments[i], |s.commands|;
    LedgerIds(s, n);
    AlwaysSummed(s, n, payment.id);
  }
}
