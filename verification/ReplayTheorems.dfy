/**
 What every successful replay yields: reachable payments listed by id, the time that the
 scenario asks for, and commands that touch no more than they name.
 */
module ReplayTheorems {
  import opened Outcomes
  import opened Ordering
  import opened Payments
  import opened Sagas
  import opened DeterministicProvider
  import opened Scenarios
  import opened Replay
  import opened ReplayRunner
  import Comparison
  import Jobs

  // ----- Reachable payments -----

  /** `q` follows from `p` by legal transitions. */
  ghost predicate Reachable(p: PaymentState, q: PaymentState) {
    exists ops :: Accepts(p, ops) && Exec(p, ops) == q
  }

  lemma ReachableSelf(p: PaymentState)
    ensures Reachable(p, p)
  {
    assert Accepts(p, []) && Exec(p, []) == p;
  }

  lemma ReachableNext(p: PaymentState, op: Op)
    requires Apply(p, op).Ok?
    ensures Reachable(p, Apply(p, op).value)
  {
    ExecSnoc(p, [], op);
    assert [op][..0] == [] && [] + [op] == [op];
    assert Accepts(p, [op]) && Exec(p, [op]) == Apply(p, op).value;
  }

  lemma {:induction false} AcceptsAppend(p: PaymentState, first: seq<Op>, second: seq<Op>)
    requires Accepts(p, first) && Accepts(Exec(p, first), second)
    ensures Accepts(p, first + second)
  {
    if second == [] {
      assert first + second == first;
    } else {
      var q, init, last := Exec(p, first), second[..|second| - 1], second[|second| - 1];
      assert second == init + [last];
      AcceptsSnoc(q, init, last);
      AcceptsAppend(p, first, init);
      ExecAppend(p, first, init);
      AcceptsSnoc(p, first + init, last);
      assert first + second == (first + init) + [last];
    }
  }

  lemma ReachableTransitive(p: PaymentState, q: PaymentState, r: PaymentState)
    requires Reachable(p, q) && Reachable(q, r)
    ensures Reachable(p, r)
  {
    var first :| Accepts(p, first) && Exec(p, first) == q;
    var second :| Accepts(q, second) && Exec(q, second) == r;
    AcceptsAppend(p, first, second);
    ExecAppend(p, first, second);
  }

  // ----- What each part of an execution changes -----

  /** At most the payment of one id changes, and by legal transitions. */
  ghost predicate ChangesOnly(before: World, after: World, id: string) {
    && before.now == after.now
    && before.payments.Keys == after.payments.Keys
    && (forall k :: k in before.payments && k != id ==> after.payments[k] == before.payments[k])
    && (id in before.payments ==> Reachable(before.payments[id], after.payments[id]))
  }

  lemma SamePayments(before: World, after: World, id: string)
    requires before.now == after.now && before.payments == after.payments
    ensures ChangesOnly(before, after, id)
  {
    if id in before.payments {
      ReachableSelf(before.payments[id]);
    }
  }

  lemma ThenSamePayments(w: World, middle: World, after: World, id: string)
    requires ChangesOnly(w, middle, id) && after.now == middle.now && after.payments == middle.payments
    ensures ChangesOnly(w, after, id)
  {
  }

  lemma ChangeChanges(w: World, id: string, op: Op)
    requires AfterChange(w, id, op).Some?
    ensures ChangesOnly(w, AfterChange(w, id, op).value, id)
  {
    ReachableNext(w.payments[id], op);
  }

  lemma {:induction false} PublishAllKeeps(w: World, m: Message, operations: seq<AsyncOperation>)
    requires AfterPublishAll(w, m, operations).Some?
    ensures var t := AfterPublishAll(w, m, operations).value; t.payments == w.payments && t.now == w.now
  {
    if operations != [] {
      PublishAllKeeps(w, m, operations[..|operations| - 1]);
    }
  }

  lemma {:induction false} EnqueueAllKeeps(w: World, operations: seq<AsyncOperation>)
    requires AfterEnqueueAll(w, operations).Some?
    ensures var t := AfterEnqueueAll(w, operations).value; t.payments == w.payments && t.now == w.now
  {
    if operations != [] {
      EnqueueAllKeeps(w, operations[..|operations| - 1]);
    }
  }

  lemma AdvanceKeeps(w: World, i: Instance, step: SagaStep, succeeded: bool)
    requires AfterAdvance(w, i, step, succeeded).Some?
    ensures var t := AfterAdvance(w, i, step, succeeded).value; t.payments == w.payments && t.now == w.now
  {
  }

  lemma DecisionChanges(w: World, i: Instance, m: Message, decision: Decision)
    requires AfterDecision(w, i, m, decision).Some?
    ensures ChangesOnly(w, AfterDecision(w, i, m, decision).value, m.paymentId)
  {
    var after := AfterDecision(w, i, m, decision).value;
    match decision
    case Waiting(operations) =>
      PublishAllKeeps(w, m, operations);
      SamePayments(w, after, m.paymentId);
    case AlreadyApplied =>
      AdvanceKeeps(w, i, m.step, true);
      SamePayments(w, after, m.paymentId);
    case Answered(approved) =>
      match OpFor(m, approved) {
        case Ok(Some(op)) =>
          var changed := AfterChange(w, m.paymentId, op).value;
          ChangeChanges(w, m.paymentId, op);
          AdvanceKeeps(changed, i, m.step, approved);
          ThenSamePayments(w, changed, after, m.paymentId);
        case Ok(None) =>
          AdvanceKeeps(w, i, m.step, approved);
          SamePayments(w, after, m.paymentId);
        case Err(_) => assert false;
      }
    case Rejected => assert false;
  }

  lemma AnswerChanges(w: World, kind: CommandType, id: string, amount: Money, answer: Answer)
    requires AfterAnswer(w, kind, id, amount, answer).Some?
    ensures ChangesOnly(w, AfterAnswer(w, kind, id, amount, answer).value, id)
  {
    match answer
    case Pending(operations) =>
      EnqueueAllKeeps(w, operations);
      SamePayments(w, AfterAnswer(w, kind, id, amount, answer).value, id);
    case Declined => ChangeChanges(w, id, Op.Fail);
    case Approved =>
      match kind {
        case AuthorizePayment => ChangeChanges(w, id, Op.Authorize);
        case CancelPayment => ChangeChanges(w, id, Op.Cancel);
        case CapturePayment => ChangeChanges(w, id, Op.Capture(NewMoney(amount.amount, amount.currency).value));
        case RefundPayment => ChangeChanges(w, id, Op.Refund(NewMoney(amount.amount, amount.currency).value));
        case _ =>
      }
    case Unavailable =>
  }

  /** The payment named in a job's payload. */
  function PaymentOf(work: Work): string {
    match work
    case ProviderAsync(operation) => operation.paymentId
    case SagaStepOf(m) => m.paymentId
  }

  lemma WorkChanges(p: Provider, w: World, work: Work)
    requires AfterWork(p, w, work).Some?
    ensures ChangesOnly(w, AfterWork(p, w, work).value, PaymentOf(work))
  {
    match work
    case ProviderAsync(operation) =>
      AnswerChanges(w, KindOf(operation).value, operation.paymentId, NO_MONEY, Approved);
    case SagaStepOf(m) =>
      var i := w.sagas[m.sagaId];
      if i.status == StatusCompleted || i.status == StatusFailed || i.currentStep != m.step {
        SamePayments(w, w, m.paymentId);
      } else {
        var payment := w.payments[m.paymentId];
        DecisionChanges(w, i, m, DecideOn(payment, m, AnswerTo(p, m, payment, w.now)));
      }
  }

  /** Running a job changes at most the payment that its payload names. */
  lemma JobChanges(p: Provider, w: World, id: string, owner: string)
    requires AfterJob(p, w, id, owner).Some?
    ensures id in w.jobs && ChangesOnly(w, AfterJob(p, w, id, owner).value, PaymentOf(w.jobs[id].work))
  {
    var entry := w.jobs[id];
    var started := Jobs.AfterStart(Jobs.AfterLease(entry.job, owner, w.now + MINUTE).value).value;
    WorkChanges(p, w.(jobs := w.jobs[started.id := entry.(job := started)]), entry.work);
  }

  /** `execute_async` changes at most the payment named in its job. */
  lemma ExecuteAsyncChangesOnePayment(p: Provider, w: World, c: Command)
    requires c.kind == ExecuteAsync && AfterCommand(p, w, c).0.Some?
    ensures c.operationId in w.jobs &&
            ChangesOnly(w, AfterCommand(p, w, c).0.value, PaymentOf(w.jobs[c.operationId].work))
  {
    JobChanges(p, w, c.operationId, DIRECT_OWNER);
  }

  /** Every payment stays and moves on by legal transitions. */
  ghost predicate Evolves(before: World, after: World) {
    && before.now == after.now
    && before.payments.Keys == after.payments.Keys
    && forall k :: k in before.payments ==> Reachable(before.payments[k], after.payments[k])
  }

  lemma ChangeEvolves(before: World, after: World, id: string)
    requires ChangesOnly(before, after, id)
    ensures Evolves(before, after)
  {
    forall k | k in before.payments
      ensures Reachable(before.payments[k], after.payments[k])
    {
      ReachableSelf(before.payments[k]);
    }
  }

  lemma EvolvesTransitive(u: World, v: World, w: World)
    requires Evolves(u, v) && Evolves(v, w)
    ensures Evolves(u, w)
  {
    forall k | k in u.payments
      ensures Reachable(u.payments[k], w.payments[k])
    {
      ReachableTransitive(u.payments[k], v.payments[k], w.payments[k]);
    }
  }

  lemma {:induction false} JobsEvolve(p: Provider, w: World, keys: seq<JobKey>)
    requires AfterJobs(p, w, keys).Some?
    ensures Evolves(w, AfterJobs(p, w, keys).value)
  {
    if keys == [] {
      SamePayments(w, w, "");
      ChangeEvolves(w, w, "");
    } else {
      var init, last := keys[..|keys| - 1], keys[|keys| - 1];
      JobsEvolve(p, w, init);
      var before := AfterJobs(p, w, init).value;
      JobChanges(p, before, last.id, SCHEDULER_OWNER);
      ChangeEvolves(before, AfterJobs(p, w, keys).value, PaymentOf(before.jobs[last.id].work));
      EvolvesTransitive(w, before, AfterJobs(p, w, keys).value);
    }
  }

  lemma StartSagaEvolves(p: Provider, w: World, c: Command)
    requires AfterStartSaga(p, w, c).Some?
    ensures Evolves(w, AfterStartSaga(p, w, c).value)
  {
    var started := AfterStart(w, c).value;
    SamePayments(w, started, "");
    ChangeEvolves(w, started, "");
    var ticked := AfterTick(p, started).value;
    JobsEvolve(p, started, Batch(started.jobs, started.now, BATCH_SIZE));
    JobsEvolve(p, ticked, Batch(ticked.jobs, ticked.now, BATCH_SIZE));
    EvolvesTransitive(w, started, ticked);
    EvolvesTransitive(w, ticked, AfterStartSaga(p, w, c).value);
  }

  /** A command other than a creation or an advance keeps time and moves payments on. */
  lemma CommandEvolves(p: Provider, w: World, c: Command)
    requires c.kind != CreatePayment && c.kind != AdvanceTime && AfterCommand(p, w, c).0.Some?
    ensures Evolves(w, AfterCommand(p, w, c).0.value)
  {
    var after := AfterCommand(p, w, c).0.value;
    if c.kind == StartSaga {
      StartSagaEvolves(p, w, c);
    } else if c.kind == ExecuteAsync {
      ExecuteAsyncChangesOnePayment(p, w, c);
      ChangeEvolves(w, after, PaymentOf(w.jobs[c.operationId].work));
    } else {
      AnswerChanges(w, c.kind, c.paymentId, c.amount, DirectAnswer(p, w.payments[c.paymentId], c, w.now));
      ChangeEvolves(w, after, c.paymentId);
    }
  }

  // ----- Whole executions -----

  /** A state in which a payment entered the execution: given initially or made by one of the first `n` commands. */
  ghost predicate Origin(s: Scenario, n: nat, first: PaymentState)
    requires n <= |s.commands|
  {
    || first in s.initialPayments
    || exists i :: 0 <= i < n && Makes(s.commands[i], first)
  }

  predicate Makes(c: Command, first: PaymentState) {
    c.kind == CreatePayment && NewMoney(c.amount.amount, c.amount.currency).Ok? &&
      New(c.paymentId, c.amount) == Ok(first)
  }

  ghost predicate Grounded(s: Scenario, n: nat, id: string, payment: PaymentState)
    requires n <= |s.commands|
  {
    exists first :: Origin(s, n, first) && first.id == id && Valid(first) && Reachable(first, payment)
  }

  ghost predicate AllGrounded(s: Scenario, n: nat, payments: Ledger)
    requires n <= |s.commands|
  {
    forall id :: id in payments ==> Grounded(s, n, id, payments[id])
  }

  lemma StillGrounded(s: Scenario, n: nat, id: string, payment: PaymentState, later: PaymentState)
    requires n < |s.commands| && Grounded(s, n, id, payment) && Reachable(payment, later)
    ensures Grounded(s, n + 1, id, later)
  {
    var first :| Origin(s, n, first) && first.id == id && Valid(first) && Reachable(first, payment);
    ReachableTransitive(first, payment, later);
    assert Origin(s, n + 1, first);
  }

  lemma {:induction false} InitialGrounded(s: Scenario, payments: seq<PaymentState>, n: nat)
    requires n <= |s.commands| &&
             forall i :: 0 <= i < |payments| ==> payments[i] in s.initialPayments && Valid(payments[i])
    ensures AllGrounded(s, n, InitialLedger(payments))
  {
    if payments != [] {
      InitialGrounded(s, payments[..|payments| - 1], n);
      var last := payments[|payments| - 1];
      ReachableSelf(last);
      assert Origin(s, n, last);
    }
  }

  lemma CreationGrounded(s: Scenario, n: nat, w: World)
    requires n < |s.commands| && s.commands[n].kind == CreatePayment &&
             AfterCommand(ProviderOf(s), w, s.commands[n]).0.Some?
    requires AllGrounded(s, n, w.payments)
    ensures AllGrounded(s, n + 1, AfterCommand(ProviderOf(s), w, s.commands[n]).0.value.payments)
  {
    var c := s.commands[n];
    var after := AfterCommand(ProviderOf(s), w, c).0.value;
    var made := after.payments[c.paymentId];
    forall id | id in after.payments
      ensures Grounded(s, n + 1, id, after.payments[id])
    {
      if id == c.paymentId {
        ReachableSelf(made);
        assert Makes(s.commands[n], made);
        assert Origin(s, n + 1, made);
      } else {
        ReachableSelf(w.payments[id]);
        StillGrounded(s, n, id, w.payments[id], after.payments[id]);
      }
    }
  }

  lemma CommandKeepsGrounded(s: Scenario, n: nat, w: World)
    requires n < |s.commands| && AfterCommand(ProviderOf(s), w, s.commands[n]).0.Some?
    requires AllGrounded(s, n, w.payments)
    ensures AllGrounded(s, n + 1, AfterCommand(ProviderOf(s), w, s.commands[n]).0.value.payments)
  {
    var c := s.commands[n];
    var after := AfterCommand(ProviderOf(s), w, c).0.value;
    if c.kind == CreatePayment {
      CreationGrounded(s, n, w);
    } else {
      if c.kind == AdvanceTime {
        forall id | id in w.payments
          ensures Reachable(w.payments[id], after.payments[id])
        {
          ReachableSelf(w.payments[id]);
        }
      } else {
        CommandEvolves(ProviderOf(s), w, c);
      }
      forall id | id in after.payments
        ensures Grounded(s, n + 1, id, after.payments[id])
      {
        StillGrounded(s, n, id, w.payments[id], after.payments[id]);
      }
    }
  }

  lemma {:induction false} ExecutionIsGrounded(s: Scenario, n: nat)
    requires ScenarioFault(s) == None && n <= |s.commands| && Executed(s, n).Ok?
    ensures AllGrounded(s, n, Executed(s, n).value.world.payments)
  {
    if n == 0 {
      ValidScenarioIff(s);
      InitialGrounded(s, s.initialPayments, 0);
    } else {
      ExecutionIsGrounded(s, n - 1);
      CommandKeepsGrounded(s, n - 1, Executed(s, n - 1).value.world);
    }
  }

  /** The durations of the first `n` commands that advance the clock. */
  function Advances(commands: seq<Command>, n: nat): int
    requires n <= |commands|
  {
    if n == 0 then 0
    else Advances(commands, n - 1) + (if commands[n - 1].kind == AdvanceTime then commands[n - 1].duration else 0)
  }

  lemma CommandTime(p: Provider, w: World, c: Command)
    requires AfterCommand(p, w, c).0.Some?
    ensures AfterCommand(p, w, c).0.value.now == w.now + (if c.kind == AdvanceTime then c.duration else 0)
  {
    if c.kind != CreatePayment && c.kind != AdvanceTime {
      CommandEvolves(p, w, c);
    }
  }

  lemma {:induction false} ExecutionTime(s: Scenario, n: nat)
    requires n <= |s.commands| && Executed(s, n).Ok?
    ensures Executed(s, n).value.world.now == s.initialVirtualTime + Advances(s.commands, n)
  {
    if n > 0 {
      ExecutionTime(s, n - 1);
      CommandTime(ProviderOf(s), Executed(s, n - 1).value.world, s.commands[n - 1]);
    }
  }

  /**
   A result is what some accepted operations make of an initial or created payment, and
   passes validation exactly when adding their number to that payment's version does not
   wrap it around to zero.
   */
  ghost predicate CountedFrom(s: Scenario, n: nat, payment: PaymentState)
    requires n <= |s.commands|
  {
    exists first, ops :: Origin(s, n, first) && first.id == payment.id && Valid(first) && Counts(first, ops, payment)
  }

  predicate Counts(first: PaymentState, ops: seq<Op>, payment: PaymentState) {
    && Accepts(first, ops) && Exec(first, ops) == payment
    && (Valid(payment) <==> ops == [] || (first.version + |ops|) % VERSIONS != 0)
  }

  lemma AcceptedCounts(first: PaymentState, ops: seq<Op>)
    requires Valid(first) && Accepts(first, ops)
    ensures Counts(first, ops, Exec(first, ops))
  {
    AcceptedKeepsShape(first, ops);
  }

  lemma GroundedIsCounted(s: Scenario, n: nat, id: string, payment: PaymentState)
    requires n <= |s.commands| && Grounded(s, n, id, payment)
    ensures payment.id == id && CountedFrom(s, n, payment)
  {
    var first :| Origin(s, n, first) && first.id == id && Valid(first) && Reachable(first, payment);
    var ops :| Accepts(first, ops) && Exec(first, ops) == payment;
    AcceptedCounts(first, ops);
    ExecKeepsIdentity(first, ops);
  }

  /**
   Every successful replay lists its payments strictly by id. Each is reachable by legal
   transitions from its initial or created state, and valid exactly when counting those
   transitions does not wrap its version. The final time is the initial time and all
   advances.
   */
  lemma ReplayResult(registered: set<string>, s: Scenario)
    requires Replayed(registered, s).Ok?
    ensures var r := Replayed(registered, s).value;
            && (forall i, j ::
                 0 <= i < j < |r.payments| ==>
                   LexLeq(r.payments[i].id, r.payments[j].id) && r.payments[i].id != r.payments[j].id)
            && (forall i :: 0 <= i < |r.payments| ==> Grounded(s, |s.commands|, r.payments[i].id, r.payments[i]))
            && (forall i :: 0 <= i < |r.payments| ==> CountedFrom(s, |s.commands|, r.payments[i]))
            && r.currentVirtualTime == s.initialVirtualTime + Advances(s.commands, |s.commands|)
  {
    var n := |s.commands|;
    var world := Executed(s, n).value.world;
    ExecutionIsGrounded(s, n);
    ExecutionTime(s, n);
    StatesAreSorted(s, world.payments);
  }

  lemma StatesAreSorted(s: Scenario, payments: Ledger)
    requires AllGrounded(s, |s.commands|, payments)
    ensures var states := States(payments);
            && (forall i :: 0 <= i < |states| ==>
                  Grounded(s, |s.commands|, states[i].id, states[i]) && CountedFrom(s, |s.commands|, states[i]))
            && (forall i, j ::
                 0 <= i < j < |states| ==> LexLeq(states[i].id, states[j].id) && states[i].id != states[j].id)
  {
    var states, ids := States(payments), SortedIds(payments);
    LexIsTotalOrder();
    EachOnce(ids, payments.Keys);
    forall i | 0 <= i < |states|
      ensures states[i].id == ids[i] && Grounded(s, |s.commands|, states[i].id, states[i]) &&
              CountedFrom(s, |s.commands|, states[i])
    {
      GroundedIsCounted(s, |s.commands|, ids[i], payments[ids[i]]);
    }
  }

  /** Two executions of one scenario compare as equivalent, whatever their enumeration orders and correlation ids. */
  method ReplayTwice(format: Comparison.Format, registered: set<string>, s: Scenario)
    returns (replayed: bool, equivalent: bool)
    ensures replayed <==> Replayed(registered, s).Ok?
    ensures replayed ==> equivalent
  {
    var first := new Runner(registered);
    var second := new Runner(registered);
    var expected := first.Run(s);
    var actual := second.Run(s);
    if expected.Err? || actual.Err? {
      return false, false;
    }
    var differences;
    equivalent, differences := Comparison.Compare(format, expected.value, actual.value);
    Comparison.EquivalenceRelation(expected.value, expected.value, expected.value);
    replayed := true;
  }
}
