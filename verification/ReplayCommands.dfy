/**
 What the commands of a scenario do, on the fields of payments and jobs: which direct
 commands can be carried out and what they change, what an announced operation can still do,
 which jobs a round of the scheduler runs, and what all captures and refunds add up to.
 */
module ReplayCommands {
  import opened Outcomes
  import opened Ordering
  import opened Payments
  import opened Sagas
  import opened DeterministicProvider
  import opened Scenarios
  import opened Replay
  import opened ReplayTheorems
  import Comparison
  import Jobs

  // ----- The configured provider -----

  /** The provider answers authorisations with a failure. */
  predicate Declines(p: Provider) {
    p.profile == "fail_authorize" || (p.profile == "seeded" && p.seed % 3 == 1)
  }

  /** The provider announces authorisations for later. */
  predicate Delays(p: Provider) {
    p.profile == "pending_authorize" || (p.profile == "seeded" && p.seed % 3 == 2)
  }

  /** Minutes until an announced authorisation is due. */
  function Delay(p: Provider): nat {
    if p.profile == "seeded" then p.seed % 5 + 1 else 1
  }

  function DueTime(p: Provider, w: World): int {
    w.now + Delay(p) * MINUTE
  }

  /** A payment that the provider deals with. */
  predicate Served(payment: PaymentState) {
    payment.id != "" && payment.version != 0 && payment.amount.amount > 0 && ValidCurrency(payment.amount.currency)
  }

  // ----- Direct commands -----

  predicate Direct(kind: CommandType) {
    kind == AuthorizePayment || kind == CapturePayment || kind == RefundPayment || kind == CancelPayment
  }

  /** When a direct command on a payment can be carried out. */
  predicate Feasible(p: Provider, w: World, payment: PaymentState, c: Command) {
    Served(payment) &&
      match c.kind
      case AuthorizePayment => if Delays(p) then DueTime(p, w) != UNSET else payment.status == Status.Pending
      case CancelPayment => payment.status == Authorized
      case CapturePayment =>
        && (payment.status == Authorized || payment.status == PartiallyCaptured)
        && c.amount.currency == payment.amount.currency
        && 0 < c.amount.amount <= payment.authorized - payment.captured
      case RefundPayment =>
        && (payment.status == Captured || payment.status == PartiallyRefunded)
        && c.amount.currency == payment.amount.currency
        && 0 < c.amount.amount <= payment.captured - payment.refunded
      case _ => false
  }

  /** The announced authorisation of a payment. */
  function Announcement(p: Provider, w: World, id: string): AsyncOperation {
    AsyncOperation(p.id + ":" + id + ":async", id, "authorize", "", DueTime(p, w))
  }

  /** A new job that waits for its time with a payload. */
  predicate Waits(entry: ScenarioJob, id: string, at: int, work: Work) {
    && entry.work == work && entry.job.id == id && entry.job.status == Jobs.Pending && entry.job.scheduledAt == at
    && entry.job.nextAttemptAt == at && entry.job.attempts == 0 && entry.job.generation == 0
  }

  /** The payments after a direct command, one of which changed. */
  predicate Pays(p: Provider, before: Ledger, after: Ledger, c: Command) {
    c.paymentId in before &&
      var payment := before[c.paymentId];
      var next := (payment.version + 1) % VERSIONS;
      match c.kind
      case AuthorizePayment =>
        if Delays(p) then after == before
        else if Declines(p) then after == before[c.paymentId := payment.(status := Failed, version := next)]
        else after == before[c.paymentId :=
          payment.(status := Authorized, authorized := payment.amount.amount, version := next)]
      case CancelPayment => after == before[c.paymentId := payment.(status := Cancelled, version := next)]
      case CapturePayment => after == before[c.paymentId := payment.(captured := payment.captured + c.amount.amount,
        status := if payment.captured + c.amount.amount == payment.authorized then Captured else PartiallyCaptured,
        version := next)]
      case RefundPayment => after == before[c.paymentId := payment.(refunded := payment.refunded + c.amount.amount,
        status := if payment.refunded + c.amount.amount == payment.captured then Refunded else PartiallyRefunded,
        version := next)]
      case _ => false
  }

  /** What a direct command leaves besides the payments: at most one announced operation, to be run later. */
  predicate Announces(p: Provider, before: World, after: World, operations: seq<AsyncOperation>, c: Command) {
    && after.now == before.now && after.sagas == before.sagas
    && var announced := Announcement(p, before, c.paymentId);
       if c.kind == AuthorizePayment && Delays(p) then
         && operations == [announced]
         && announced.id in after.jobs && after.jobs == before.jobs[announced.id := after.jobs[announced.id]]
         && Waits(after.jobs[announced.id], announced.id, DueTime(p, before), ProviderAsync(announced))
       else operations == [] && after.jobs == before.jobs
  }

  /** The provider's answer to a direct command, in terms of its profile and seed. */
  predicate AnswersAs(p: Provider, w: World, payment: PaymentState, c: Command, answer: Answer) {
    if !Served(payment) then answer == Unavailable
    else
      match c.kind
      case AuthorizePayment =>
        if Declines(p) then answer == Declined
        else if Delays(p) then
          answer == if DueTime(p, w) == UNSET then Unavailable else Answer.Pending([Announcement(p, w, payment.id)])
        else answer == Approved
      case CancelPayment => answer == Approved
      case CapturePayment => answer == if OfferedMoney(payment, c) then Approved else Unavailable
      case RefundPayment => answer == if OfferedMoney(payment, c) then Approved else Unavailable
      case _ => true
  }

  predicate OfferedMoney(payment: PaymentState, c: Command) {
    c.amount.amount > 0 && c.amount.currency == payment.amount.currency
  }

  lemma DirectAnswers(p: Provider, w: World, payment: PaymentState, c: Command)
    requires Direct(c.kind)
    ensures AnswersAs(p, w, payment, c, DirectAnswer(p, payment, c, w.now))
  {
    assert |"cancel"| != |"authorize"| && |"capture"| != |"authorize"| && |"refund"| != |"authorize"|;
    if c.kind == AuthorizePayment && Served(payment) && Delays(p) && !Declines(p) {
      assert ResultOf(p, "authorize", payment.id, w.now) == PendingAnswer(p, "authorize", payment.id, w.now, Delay(p));
      assert PendingAnswer(p, "authorize", payment.id, w.now, Delay(p)) ==
             Answer.Pending([Announcement(p, w, payment.id)]);
      assert DueTime(p, w) == UNSET ==> !ValidOperation([Announcement(p, w, payment.id)][0]);
    }
  }

  lemma AnnouncedIsEnqueued(p: Provider, w: World, c: Command)
    requires DueTime(p, w) != UNSET && c.paymentId in w.payments
    ensures var announced := Announcement(p, w, c.paymentId);
            && AfterEnqueueAll(w, [announced]).Some?
            && var after := AfterEnqueueAll(w, [announced]).value;
               && after.payments == w.payments && after.now == w.now && after.sagas == w.sagas
               && announced.id in after.jobs && after.jobs == w.jobs[announced.id := after.jobs[announced.id]]
               && Waits(after.jobs[announced.id], announced.id, DueTime(p, w), ProviderAsync(announced))
  {
    var announced := Announcement(p, w, c.paymentId);
    assert announced.id != "";
    assert [announced][..0] == [];
    assert AfterEnqueueAll(w, []) == Some(w);
  }

  /** A direct command under an answer. */
  lemma AnsweredCommand(p: Provider, w: World, c: Command, answer: Answer)
    requires c.paymentId in w.payments && w.payments[c.paymentId].id == c.paymentId && Direct(c.kind)
    requires AnswersAs(p, w, w.payments[c.paymentId], c, answer)
    ensures var after := AfterAnswer(w, c.kind, c.paymentId, c.amount, answer);
            && (after.Some? <==> Feasible(p, w, w.payments[c.paymentId], c))
            && (after.Some? ==> Pays(p, w.payments, after.value.payments, c) &&
                                Announces(p, w, after.value, OperationsOf(answer), c))
  {
    if answer.Pending? {
      AnnouncedIsEnqueued(p, w, c);
    }
  }

  /**
   A direct command succeeds exactly when the provider serves the payment and the payment is
   in a state for it. It then does what it asks with its own amount, once; the provider's
   failure of an authorisation fails the payment, and a delayed authorisation changes no
   payment and leaves one job for its time.
   */
  lemma DirectCommand(p: Provider, w: World, c: Command)
    requires c.paymentId in w.payments && w.payments[c.paymentId].id == c.paymentId && Direct(c.kind)
    ensures var (after, operations) := AfterCommand(p, w, c);
            && (after.Some? <==> Feasible(p, w, w.payments[c.paymentId], c))
            && (after.Some? ==> Pays(p, w.payments, after.value.payments, c) &&
                                Announces(p, w, after.value, operations, c))
  {
    DirectAnswers(p, w, w.payments[c.paymentId], c);
    AnsweredCommand(p, w, c, DirectAnswer(p, w.payments[c.paymentId], c, w.now));
  }

  // ----- Announced operations -----

  /** What is left of an announced operation when it is executed; a capture or refund has no amount then. */
  predicate Resumes(before: Ledger, after: Ledger, operation: AsyncOperation) {
    operation.paymentId in before &&
      var payment := before[operation.paymentId];
      var next := (payment.version + 1) % VERSIONS;
      if operation.kind == "authorize" then
        && payment.status == Status.Pending
        && after == before[operation.paymentId :=
             payment.(status := Authorized, authorized := payment.amount.amount, version := next)]
      else
        && operation.kind == "cancel" && payment.status == Authorized
        && after == before[operation.paymentId := payment.(status := Cancelled, version := next)]
  }

  /** Exactly announced authorisations and cancellations can be executed, once, and they change their payment alone. */
  lemma OperationResumes(w: World, operation: AsyncOperation)
    ensures var after := AfterOperation(w, operation);
            (after.Some? <==> ValidOperation(operation) && exists payments :: Resumes(w.payments, payments, operation))
    ensures var after := AfterOperation(w, operation);
            after.Some? ==> Resumes(w.payments, after.value.payments, operation) &&
                            after.value == w.(payments := after.value.payments)
  {
    assert |"cancel"| != |"authorize"| && |"capture"| != |"authorize"| && |"refund"| != |"authorize"|;
    assert |"cancel"| != |"capture"| && "cancel"[0] != "refund"[0];
    var after := AfterOperation(w, operation);
    if after.Some? {
      assert Resumes(w.payments, after.value.payments, operation);
    }
  }

  // ----- One round of the scheduler -----

  predicate Due(job: Jobs.JobState, at: int) {
    job.status == Jobs.Pending && !(job.nextAttemptAt > at)
  }

  /** Whether a job comes before another: by time, then by id. */
  predicate Earlier(jobs: map<string, ScenarioJob>, id: string, other: string)
    requires id in jobs && other in jobs
  {
    || jobs[id].job.nextAttemptAt < jobs[other].job.nextAttemptAt
    || (jobs[id].job.nextAttemptAt == jobs[other].job.nextAttemptAt && LexLeq(id, other))
  }

  /** Due jobs, in order and each once. */
  ghost predicate DueInOrder(jobs: map<string, ScenarioJob>, at: int, batch: seq<JobKey>) {
    && (forall i :: 0 <= i < |batch| ==> batch[i].id in jobs && Due(jobs[batch[i].id].job, at))
    && (forall i, j :: 0 <= i < j < |batch| ==>
          batch[i].id != batch[j].id && Earlier(jobs, batch[i].id, batch[j].id))
  }

  /** A due job is in the batch, or the batch is full of earlier ones. */
  ghost predicate TakenOrLater(jobs: map<string, ScenarioJob>, batch: seq<JobKey>, limit: nat, id: string)
    requires id in jobs && forall i :: 0 <= i < |batch| ==> batch[i].id in jobs
  {
    || (exists i :: 0 <= i < |batch| && batch[i].id == id)
    || (|batch| == limit && forall i :: 0 <= i < |batch| ==> Earlier(jobs, batch[i].id, id))
  }

  lemma ListedInOrder(jobs: map<string, ScenarioJob>, at: int, listed: seq<JobKey>)
    requires TotalOrder(JobKeyLeq) && listed == Listing(DueAmong(jobs, jobs.Keys, at), JobKeyLeq)
    ensures DueInOrder(jobs, at, listed)
    ensures forall id :: id in jobs && Due(jobs[id].job, at) ==>
              exists k :: 0 <= k < |listed| && listed[k].id == id
  {
    var keys := DueAmong(jobs, jobs.Keys, at);
    EachOnce(listed, keys);
    forall i | 0 <= i < |listed|
      ensures listed[i].id in jobs && Due(jobs[listed[i].id].job, at)
      ensures listed[i].nextAttemptAt == jobs[listed[i].id].job.nextAttemptAt
    {
      assert listed[i] in keys;
    }
    forall i, j | 0 <= i < j < |listed|
      ensures listed[i].id != listed[j].id && Earlier(jobs, listed[i].id, listed[j].id)
    {
      assert JobKeyLeq(listed[i], listed[j]);
    }
    forall id | id in jobs && Due(jobs[id].job, at)
      ensures exists k :: 0 <= k < |listed| && listed[k].id == id
    {
      assert JobKey(jobs[id].job.nextAttemptAt, id) in keys;
    }
  }

  /** A round takes due jobs in order of time and id, each once; one that it leaves out comes after all of them. */
  lemma RoundTakesTheEarliest(jobs: map<string, ScenarioJob>, at: int, limit: nat)
    ensures var batch := Batch(jobs, at, limit);
            && |batch| <= limit && DueInOrder(jobs, at, batch)
            && forall id :: id in jobs && Due(jobs[id].job, at) ==> TakenOrLater(jobs, batch, limit, id)
  {
    JobKeyOrder();
    var listed := Listing(DueAmong(jobs, jobs.Keys, at), JobKeyLeq);
    ListedInOrder(jobs, at, listed);
    Cut(jobs, at, listed, limit, Batch(jobs, at, limit));
  }

  lemma Cut(jobs: map<string, ScenarioJob>, at: int, listed: seq<JobKey>, limit: nat, batch: seq<JobKey>)
    requires DueInOrder(jobs, at, listed) && batch == Truncated(listed, limit)
    requires forall id :: id in jobs && Due(jobs[id].job, at) ==> exists k :: 0 <= k < |listed| && listed[k].id == id
    ensures |batch| <= limit && DueInOrder(jobs, at, batch)
    ensures forall id :: id in jobs && Due(jobs[id].job, at) ==> TakenOrLater(jobs, batch, limit, id)
  {
    assert forall i :: 0 <= i < |batch| ==> batch[i] == listed[i];
    forall id | id in jobs && Due(jobs[id].job, at)
      ensures TakenOrLater(jobs, batch, limit, id)
    {
      var k :| 0 <= k < |listed| && listed[k].id == id;
      assert k < |batch| ==> batch[k].id == id;
    }
  }
}
