/**
 The scenario runner of internal/replay/application/runner.go with its in-memory
 repositories. Maps are enumerated in any order and correlation ids are drawn at random;
 the result is nevertheless the function `Replayed` of the scenario.
 */
module ReplayRunner {
  import opened Outcomes
  import opened Ordering
  import opened Payments
  import opened Sagas
  import opened DeterministicProvider
  import opened Scenarios
  import opened Replay
  import Comparison
  import Jobs

  /** A job, what its payload encodes, and the correlation id that travels with it. */
  datatype JobRecord = JobRecord(job: Jobs.JobState, work: Work, correlationId: string)

  /** The jobs without their correlation ids. */
  function Erased(jobs: map<string, JobRecord>): map<string, ScenarioJob> {
    map id | id in jobs :: ScenarioJob(jobs[id].job, jobs[id].work)
  }

  /** A step fails exactly when its function has no world, and otherwise reaches that world. */
  predicate Reaches(expected: Option<World>, failed: bool, actual: World) {
    match expected
    case None => failed
    case Some(world) => !failed && actual == world
  }

  class Runner {
    const registered: set<string>
    var provider: Provider
    var payments: Ledger
    var sagas: SagaTable
    var jobs: map<string, JobRecord>
    var now: int

    constructor (registered: set<string>)
      ensures this.registered == registered
    {
      this.registered := registered;
      provider := Provider("", "", 0);
      payments, sagas, jobs, now := map[], map[], map[], 0;
    }

    function State(): World
      reads this
    {
      World(payments, sagas, Erased(jobs), now)
    }

    method NewCorrelationId() returns (id: string)
      ensures id != ""
    {
      id := *;
      if id == "" {
        id := "0";
      }
    }

    method SaveJob(job: Jobs.JobState, work: Work, correlationId: string)
      modifies this`jobs
      ensures State() == old(State()).(jobs := old(State()).jobs[job.id := ScenarioJob(job, work)])
    {
      jobs := jobs[job.id := JobRecord(job, work, correlationId)];
    }

    method Enqueue(id: string, jobType: string, scheduledAt: int, work: Work, correlationId: string)
      returns (failed: bool)
      modifies this`jobs
      ensures Reaches(AfterEnqueue(old(State()), id, jobType, scheduledAt, work), failed, State())
    {
      var job := Jobs.NewJob(id, jobType, "", scheduledAt, "", "");
      if job.Err? {
        return true;
      }
      SaveJob(job.value, work, correlationId);
      return false;
    }

    /** A message without a correlation id gets a new one. */
    method Publish(m: Message, correlationId: string) returns (failed: bool)
      modifies this`jobs
      ensures Reaches(AfterPublish(old(State()), m), failed, State())
    {
      var id := correlationId;
      if id == "" {
        id := NewCorrelationId();
      }
      failed := Enqueue(m.id, SAGA_JOB_TYPE, m.scheduledAt, SagaStepOf(m), id);
    }

    method PublishOperations(m: Message, operations: seq<AsyncOperation>, correlationId: string) returns (failed: bool)
      modifies this`jobs
      ensures Reaches(AfterPublishAll(old(State()), m, operations), failed, State())
    {
      for n := 0 to |operations|
        invariant AfterPublishAll(old(State()), m, operations[..n]) == Some(State())
      {
        assert operations[..n + 1][..n] == operations[..n];
        failed := Publish(AsyncMessage(m, operations[n]), correlationId);
        if failed {
          PublishFailureLasts(old(State()), m, operations, n + 1);
          return;
        }
      }
      assert operations[..|operations|] == operations;
      return false;
    }

    method EnqueueOperations(operations: seq<AsyncOperation>) returns (failed: bool)
      modifies this`jobs
      ensures Reaches(AfterEnqueueAll(old(State()), operations), failed, State())
    {
      for n := 0 to |operations|
        invariant AfterEnqueueAll(old(State()), operations[..n]) == Some(State())
      {
        assert operations[..n + 1][..n] == operations[..n];
        failed := Enqueue(operations[n].id, ASYNC_JOB_TYPE, operations[n].scheduledAt, ProviderAsync(operations[n]),
          "");
        if failed {
          EnqueueFailureLasts(old(State()), operations, n + 1);
          return;
        }
      }
      assert operations[..|operations|] == operations;
      return false;
    }

    method Change(id: string, op: Op) returns (failed: bool)
      modifies this`payments
      ensures Reaches(AfterChange(old(State()), id, op), failed, State())
    {
      if id !in payments {
        return true;
      }
      var after := Apply(payments[id], op);
      if after.Err? {
        return true;
      }
      payments := payments[id := after.value];
      return false;
    }

    method MoneyChange(id: string, amount: Money, refund: bool) returns (failed: bool)
      modifies this`payments
      ensures Reaches(AfterMoneyChange(old(State()), id, amount, refund), failed, State())
    {
      var money := NewMoney(amount.amount, amount.currency);
      if money.Err? {
        return true;
      }
      failed := Change(id, if refund then Op.Refund(money.value) else Op.Capture(money.value));
    }

    method Create(id: string, amount: Money) returns (failed: bool)
      modifies this`payments
      ensures Reaches(AfterCreate(old(State()), id, amount), failed, State())
    {
      var money := NewMoney(amount.amount, amount.currency);
      if money.Err? {
        return true;
      }
      var payment := New(id, money.value);
      if payment.Err? || id in payments {
        return true;
      }
      payments := payments[id := payment.value];
      return false;
    }

    method Advance(i: Instance, step: SagaStep, succeeded: bool, correlationId: string) returns (failed: bool)
      modifies this`sagas, this`jobs
      ensures Reaches(AfterAdvance(old(State()), i, step, succeeded), failed, State())
    {
      var next := Advanced(i, step, succeeded, now);
      if next.Err? {
        return true;
      }
      sagas := sagas[next.value.id := next.value];
      if next.value.status == StatusRunning || next.value.status == StatusCompensating {
        failed := Publish(CurrentMessage(next.value, now), correlationId);
        return;
      }
      return false;
    }

    method Conclude(i: Instance, m: Message, decision: Decision, correlationId: string) returns (failed: bool)
      modifies this`payments, this`sagas, this`jobs
      ensures Reaches(AfterDecision(old(State()), i, m, decision), failed, State())
    {
      match decision
      case Rejected => return true;
      case Waiting(operations) => failed := PublishOperations(m, operations, correlationId);
      case AlreadyApplied => failed := Advance(i, m.step, true, correlationId);
      case Answered(approved) =>
        var decoded := Decode(m.payload);
        if decoded.None? {
          return true;
        }
        var op := OpFor(m, approved);
        if op.Err? {
          return true;
        }
        if op.value.Some? {
          failed := Change(m.paymentId, op.value.value);
          if failed {
            return;
          }
        }
        failed := Advance(i, m.step, approved, correlationId);
    }

    method HandleSaga(m: Message, correlationId: string) returns (failed: bool)
      modifies this`payments, this`sagas, this`jobs
      ensures Reaches(AfterMessage(provider, old(State()), m), failed, State())
    {
      if !ValidMessage(m) || m.sagaId !in sagas {
        return true;
      }
      var i := sagas[m.sagaId];
      if i.status == StatusCompleted || i.status == StatusFailed || i.currentStep != m.step {
        return false;
      }
      if m.paymentId !in payments || Decode(m.payload).None? {
        return true;
      }
      var payment := payments[m.paymentId];
      var answer := AnswerTo(provider, m, payment, now);
      failed := Conclude(i, m, DecideOn(payment, m, answer), correlationId);
    }

    method ApplyAnswer(kind: CommandType, id: string, amount: Money, answer: Answer) returns (failed: bool)
      modifies this`payments, this`jobs
      ensures Reaches(AfterAnswer(old(State()), kind, id, amount, answer), failed, State())
    {
      match answer
      case Unavailable => return true;
      case Pending(operations) => failed := EnqueueOperations(operations);
      case Declined =>
        if kind != AuthorizePayment {
          return true;
        }
        failed := Change(id, Op.Fail);
      case Approved =>
        match kind {
          case AuthorizePayment => failed := Change(id, Op.Authorize);
          case CancelPayment => failed := Change(id, Op.Cancel);
          case CapturePayment => failed := MoneyChange(id, amount, false);
          case RefundPayment => failed := MoneyChange(id, amount, true);
          case _ => return true;
        }
    }

    method HandleAsync(operation: AsyncOperation) returns (failed: bool)
      modifies this`payments, this`jobs
      ensures Reaches(AfterOperation(old(State()), operation), failed, State())
    {
      if operation.paymentId !in payments {
        return true;
      }
      var answer, kind := Resumption(operation), KindOf(operation);
      if answer != Approved || kind.None? {
        return true;
      }
      failed := ApplyAnswer(kind.value, operation.paymentId, NO_MONEY, answer);
    }

    method Handle(work: Work, correlationId: string) returns (failed: bool)
      modifies this`payments, this`sagas, this`jobs
      ensures Reaches(AfterWork(provider, old(State()), work), failed, State())
    {
      match work
      case ProviderAsync(operation) => failed := HandleAsync(operation);
      case SagaStepOf(m) => failed := HandleSaga(m, correlationId);
    }

    /** Acquire, start, handle, complete, saving the job at each turn. */
    method ExecuteJob(id: string, owner: string) returns (failed: bool)
      modifies this`payments, this`sagas, this`jobs
      ensures Reaches(AfterJob(provider, old(State()), id, owner), failed, State())
    {
      if id !in jobs {
        return true;
      }
      var entry := jobs[id];
      var leased := Jobs.AfterLease(entry.job, owner, now + MINUTE);
      if leased.Err? {
        return true;
      }
      var started := Jobs.AfterStart(leased.value);
      if started.Err? {
        return true;
      }
      SaveJob(started.value, entry.work, entry.correlationId);
      failed := Handle(entry.work, entry.correlationId);
      if failed {
        return;
      }
      var completed := Jobs.AfterComplete(started.value);
      if completed.Err? {
        return true;
      }
      SaveJob(completed.value, entry.work, entry.correlationId);
    }

    /** The keys of the due jobs, in whatever order the map is enumerated. */
    method CollectDue(at: int) returns (keys: seq<JobKey>)
      ensures multiset(keys) == multiset(DueAmong(Erased(jobs), Erased(jobs).Keys, at))
    {
      keys := [];
      var left := jobs.Keys;
      ghost var seen, all := {}, Erased(jobs);
      while left != {}
        invariant left <= jobs.Keys && seen == jobs.Keys - left
        invariant multiset(keys) == multiset(DueAmong(all, seen, at))
      {
        var id :| id in left;
        DueAmongMore(all, seen, id, at);
        if Executable(jobs[id].job, at) {
          keys := keys + [JobKey(jobs[id].job.nextAttemptAt, id)];
        }
        seen, left := seen + {id}, left - {id};
      }
      assert seen == all.Keys;
    }

    method FindExecutable(at: int, limit: nat) returns (keys: seq<JobKey>)
      ensures keys == Batch(Erased(jobs), at, limit)
    {
      JobKeyOrder();
      keys := CollectDue(at);
      keys := Sort(keys, JobKeyLeq);
      ListingIsUnique(keys, DueAmong(Erased(jobs), Erased(jobs).Keys, at), JobKeyLeq);
      if |keys| > limit {
        keys := keys[..limit];
      }
    }

    /** The scheduler's round goes on after an error and then reports it. */
    method Tick() returns (failed: bool)
      modifies this`payments, this`sagas, this`jobs
      ensures Reaches(AfterTick(provider, old(State())), failed, State())
    {
      ghost var w := State();
      var keys := FindExecutable(now, BATCH_SIZE);
      assert AfterTick(provider, w) == AfterJobs(provider, w, keys);
      failed := false;
      for n := 0 to |keys|
        invariant Reaches(AfterJobs(provider, w, keys[..n]), failed, State())
      {
        AfterOneMore(provider, w, keys, n);
        var jobFailed := ExecuteJob(keys[n].id, SCHEDULER_OWNER);
        failed := failed || jobFailed;
      }
      assert keys[..|keys|] == keys;
    }

    method StartPaymentSaga(c: Command) returns (failed: bool)
      modifies this`payments, this`sagas, this`jobs
      ensures Reaches(AfterStartSaga(provider, old(State()), c), failed, State())
    {
      var created :=
          NewInstance(SagaIdOf(c.paymentId), c.paymentId, Request(Input(c.amount.amount, c.amount.currency)), 0, now);
      if created.Err? {
        return true;
      }
      sagas := sagas[created.value.id := created.value];
      failed := Publish(CurrentMessage(created.value, now), "");
      if failed {
        return;
      }
      failed := Tick();
      if failed {
        return;
      }
      failed := Tick();
    }

    method ExecuteDirect(c: Command) returns (operations: seq<AsyncOperation>, failed: bool)
      modifies this`payments, this`jobs
      ensures var (expected, left) := AfterDirect(provider, old(State()), c);
              Reaches(expected, failed, State()) && (!failed ==> operations == left)
    {
      if c.paymentId !in payments {
        return [], true;
      }
      var payment := payments[c.paymentId];
      var answer := DirectAnswer(provider, payment, c, now);
      failed := ApplyAnswer(c.kind, c.paymentId, c.amount, answer);
      operations := if answer.Pending? then answer.operations else [];
    }

    method Execute(c: Command) returns (operations: seq<AsyncOperation>, failed: bool)
      modifies this`payments, this`sagas, this`jobs, this`now
      ensures var (expected, left) := AfterCommand(provider, old(State()), c);
              Reaches(expected, failed, State()) && (!failed ==> operations == left)
    {
      operations := [];
      match c.kind
      case CreatePayment => failed := Create(c.paymentId, c.amount);
      case StartSaga => failed := StartPaymentSaga(c);
      case AdvanceTime =>
        if c.duration <= 0 {
          return operations, true;
        }
        now := now + c.duration;
        failed := false;
      case ExecuteAsync =>
        if c.operationId !in jobs {
          return operations, true;
        }
        var job := jobs[c.operationId].job;
        if job.status == Jobs.Pending && job.nextAttemptAt > now {
          return operations, true;
        }
        failed := ExecuteJob(c.operationId, DIRECT_OWNER);
      case _ => operations, failed := ExecuteDirect(c);
    }

    method CollectIds() returns (ids: seq<string>)
      ensures multiset(ids) == multiset(payments.Keys)
    {
      ids := [];
      var left := payments.Keys;
      while left != {}
        invariant left <= payments.Keys && multiset(ids) == multiset(payments.Keys - left)
      {
        var id :| id in left;
        assert payments.Keys - (left - {id}) == (payments.Keys - left) + {id};
        ids, left := ids + [id], left - {id};
      }
      assert payments.Keys - {} == payments.Keys;
    }

    /** The payments by id, in whatever order the map is enumerated. */
    method ListStates() returns (states: seq<PaymentState>)
      ensures states == States(payments)
    {
      LexIsTotalOrder();
      var ids := CollectIds();
      ids := Sort(ids, LexLeq);
      ListingIsUnique(ids, payments.Keys, LexLeq);
      assert ids == SortedIds(payments);
      assert |States(payments)| == |ids|;
      states := [];
      for n := 0 to |ids|
        invariant |states| == n && forall k :: 0 <= k < n ==> states[k] == States(payments)[k]
      {
        assert States(payments)[n] == payments[ids[n]];
        states := states + [payments[ids[n]]];
      }
    }

    /** The commands in turn, up to the first that fails. */
    method ExecuteAll(s: Scenario) returns (result: Result<seq<AsyncOperation>, ReplayError>)
      requires provider == ProviderOf(s) && Executed(s, 0) == Ok(Outcome(State(), []))
      modifies this`payments, this`sagas, this`jobs, this`now
      ensures match Executed(s, |s.commands|)
              case Err(e) => result == Err(e)
              case Ok(outcome) => result == Ok(outcome.operations) && outcome.world == State()
    {
      var operations: seq<AsyncOperation> := [];
      for n := 0 to |s.commands|
        invariant Executed(s, n) == Ok(Outcome(State(), operations))
      {
        var left, failed := Execute(s.commands[n]);
        if failed {
          FailureLasts(s, n + 1, |s.commands|);
          return Err(CommandFailed(n));
        }
        operations := operations + left;
      }
      return Ok(operations);
    }

    /** The whole execution: its result depends on the scenario alone. */
    method Run(s: Scenario) returns (result: Result<Comparison.ExecutionResult, ReplayError>)
      modifies this
      ensures result == Replayed(registered, s)
    {
      var fault := ValidateScenario(s);
      if fault.Some? {
        return Err(ReplayError.InvalidScenario(fault.value));
      }
      if s.providerId !in registered {
        return Err(ProviderNotFound);
      }
      provider := Configure(s.providerId, s.profile, s.seed);
      now := s.initialVirtualTime;
      payments := Comparison.IndexedPayments(s.initialPayments);
      jobs, sagas := map[], map[];
      assert Erased(jobs) == map[];
      var operations := ExecuteAll(s);
      if operations.Err? {
        return Err(operations.error);
      }
      var states := ListStates();
      return Ok(Comparison.ExecutionResult(states, now, operations.value));
    }
  }

  lemma AfterOneMore(p: Provider, w: World, keys: seq<JobKey>, n: nat)
    requires n < |keys|
    ensures AfterJobs(p, w, keys[..n + 1]) ==
            match AfterJobs(p, w, keys[..n])
            case None => None
            case Some(before) => AfterJob(p, before, keys[n].id, SCHEDULER_OWNER)
  {
    assert keys[..n + 1][..n] == keys[..n];
  }

  lemma DueAmongMore(jobs: map<string, ScenarioJob>, ids: set<string>, id: string, at: int)
    requires id in jobs && id !in ids
    ensures multiset(DueAmong(jobs, ids + {id}, at))
         == multiset(DueAmong(jobs, ids, at))
          + (if Executable(jobs[id].job, at) then multiset{JobKey(jobs[id].job.nextAttemptAt, id)} else multiset{})
  {
    var key, before := JobKey(jobs[id].job.nextAttemptAt, id), DueAmong(jobs, ids, at);
    assert key !in before;
    if Executable(jobs[id].job, at) {
      assert DueAmong(jobs, ids + {id}, at) == before + {key};
    } else {
      assert DueAmong(jobs, ids + {id}, at) == before;
    }
  }

  lemma {:induction false} FailureLasts(s: Scenario, n: nat, m: nat)
    requires n <= m <= |s.commands| && Executed(s, n).Err?
    ensures Executed(s, m) == Executed(s, n)
  {
    if n < m {
      FailureLasts(s, n, m - 1);
    }
  }

  lemma {:induction false} PublishFailureLasts(w: World, m: Message, operations: seq<AsyncOperation>, n: nat)
    requires n <= |operations| && AfterPublishAll(w, m, operations[..n]).None?
    ensures AfterPublishAll(w, m, operations).None?
  {
    if n == |operations| {
      assert operations[..n] == operations;
    } else {
      assert operations[..|operations| - 1][..n] == operations[..n];
      PublishFailureLasts(w, m, operations[..|operations| - 1], n);
    }
  }

  lemma {:induction false} EnqueueFailureLasts(w: World, operations: seq<AsyncOperation>, n: nat)
    requires n <= |operations| && AfterEnqueueAll(w, operations[..n]).None?
    ensures AfterEnqueueAll(w, operations).None?
  {
    if n == |operations| {
      assert operations[..n] == operations;
    } else {
      assert operations[..|operations| - 1][..n] == operations[..n];
      EnqueueFailureLasts(w, operations[..|operations| - 1], n);
    }
  }
}
