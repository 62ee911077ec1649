/**
 What each payment command does, on the fields of the payment: when it is possible, what it
 changes, what its event says, and what all commands of a run add up to.
 */
module PaymentCommands {
  import opened Outcomes
  import opened Decimal
  import opened Payments
  import opened PaymentEvents
  import opened PaymentEventRuns
  import opened EventKinds
  import PaymentStore
  import Jobs

  /** The states from which a command can be carried out, and with which amounts. */
  predicate Possible(payments: PaymentStore.Table, cmd: Command) {
    match cmd
    case CreatePayment(id, amount, currency) => id != "" && id !in payments && 0 < amount && ValidCurrency(currency)
    case AuthorizePayment(id) => Usable(payments, id) && payments[id].status == Pending
    case FailPayment(id) => Usable(payments, id) && payments[id].status == Pending
    case CancelPayment(id) => Usable(payments, id) && payments[id].status == Authorized
    case CapturePayment(id, amount, currency) =>
      && Usable(payments, id)
      && (payments[id].status == Authorized || payments[id].status == PartiallyCaptured)
      && currency == payments[id].amount.currency && 0 < amount <= payments[id].authorized - payments[id].captured
    case RefundPayment(id, amount, currency) =>
      && Usable(payments, id)
      && (payments[id].status == Captured || payments[id].status == PartiallyRefunded)
      && currency == payments[id].amount.currency && 0 < amount <= payments[id].captured - payments[id].refunded
  }

  /** A stored payment that can be restored and whose version can still grow. */
  predicate Usable(payments: PaymentStore.Table, id: string) {
    id in payments && Restores(payments[id]) && payments[id].version + 1 < VERSIONS
  }

  /** The row that a command leaves. */
  predicate Leaves(payments: PaymentStore.Table, cmd: Command, after: PaymentState) {
    match cmd
    case CreatePayment(id, amount, currency) =>
      after == PaymentState(id, Money(amount, currency), Pending, 0, 0, 0, 1)
    case AuthorizePayment(id) =>
      id in payments && after == payments[id].(status := Authorized, authorized := payments[id].amount.amount,
                                              version := payments[id].version + 1)
    case FailPayment(id) =>
      id in payments && after == payments[id].(status := Failed, version := payments[id].version + 1)
    case CancelPayment(id) =>
      id in payments && after == payments[id].(status := Cancelled, version := payments[id].version + 1)
    case CapturePayment(id, amount, _) =>
      id in payments && after == payments[id].(captured := payments[id].captured + amount,
        status := if payments[id].captured + amount == payments[id].authorized then Captured else PartiallyCaptured,
        version := payments[id].version + 1)
    case RefundPayment(id, amount, _) =>
      id in payments && after == payments[id].(refunded := payments[id].refunded + amount,
        status := if payments[id].refunded + amount == payments[id].captured then Refunded else PartiallyRefunded,
        version := payments[id].version + 1)
  }

  ghost predicate OwnIds(payments: PaymentStore.Table) {
    forall id :: id in payments ==> payments[id].id == id && payments[id].version > 0
  }

  lemma SavedRow(payments: PaymentStore.Table, cmd: Command)
    requires OwnIds(payments)
    ensures PaymentAfter(payments, cmd).Ok? && PaymentStore.Save(payments, PaymentAfter(payments, cmd).value).Ok? <==>
            Possible(payments, cmd)
    ensures Possible(payments, cmd) ==>
              var after := PaymentAfter(payments, cmd).value;
              Leaves(payments, cmd, after) && PaymentStore.Save(payments, after) == Ok(payments[cmd.id := after])
  {
    if cmd.id in payments {
      assert payments[cmd.id].id == cmd.id;
      RowAllows(payments, cmd);
    }
  }

  /** Commands on a stored payment. */
  lemma RowAllows(payments: PaymentStore.Table, cmd: Command)
    requires cmd.id in payments && payments[cmd.id].id == cmd.id && payments[cmd.id].version > 0
    ensures PaymentAfter(payments, cmd).Ok? && PaymentStore.Save(payments, PaymentAfter(payments, cmd).value).Ok? <==>
            Possible(payments, cmd)
    ensures Possible(payments, cmd) ==>
              var after := PaymentAfter(payments, cmd).value;
              Leaves(payments, cmd, after) && PaymentStore.Save(payments, after) == Ok(payments[cmd.id := after])
  {
  }

  /** The event of a command: what it announces, when, for whom, and the payment as it is then. */
  predicate Announced(event: Event, cmd: Command, after: PaymentState, at: int, correlationId: string) {
    && event.id == TaggedId(cmd.id, event.eventType, after.version) && event.aggregateId == cmd.id
    && event.version == after.version && event.occurredAt == at && event.correlationId == correlationId
    && event.payload == Snapshot(after)
    && match cmd
       case CreatePayment(_, _, _) => event.eventType == "payment.created"
       case AuthorizePayment(_) => event.eventType == "payment.authorized"
       case FailPayment(_) => event.eventType == "payment.failed"
       case CancelPayment(_) => event.eventType == "payment.cancelled"
       case CapturePayment(_, _, _) => event.eventType == "payment.captured"
       case RefundPayment(_, _, _) => event.eventType == "payment.refunded"
  }

  /** Carried out: the one row and the one event. */
  ghost predicate Done(db: Db, after: Db, cmd: Command, at: int, correlationId: string) {
    && cmd.id in after.payments && Leaves(db.payments, cmd, after.payments[cmd.id])
    && after.payments == db.payments[cmd.id := after.payments[cmd.id]] && after.endpoints == db.endpoints
    && exists event :: Announced(event, cmd, after.payments[cmd.id], at, correlationId) &&
                       event.id !in db.events && after.events == db.events[event.id := event]
  }

  /**
   A command that succeeds was possible, and does exactly what it asks: a capture adds its
   own amount to the captured sum, a refund its own to the refunded one, an authorisation
   authorises the whole amount, and everything else stays. Its event shows the result.
   */
  lemma CommandDoes(encode: Encoder, db: Db, at: int, correlationId: string, cmd: Command)
    requires OwnIds(db.payments) && Execute(encode, db, at, correlationId, cmd).Ok?
    ensures Possible(db.payments, cmd)
    ensures Done(db, Execute(encode, db, at, correlationId, cmd).value.0, cmd, at, correlationId)
  {
    SavedRow(db.payments, cmd);
    var payment, event := ExecutedEvent(encode, db, at, correlationId, cmd);
    var after := Execute(encode, db, at, correlationId, cmd).value.0;
    var published := ExecutedJobs(encode, Sys(db, at, map[]), correlationId, cmd);
    assert Announced(event, cmd, payment, at, correlationId);
  }

  /** The pending delivery of an event to an endpoint: due when the event occurred, caused by it. */
  predicate Tells(job: Jobs.JobState, endpoint: string, event: Event, payload: Jobs.Bytes) {
    && job.id == "webhook:" + event.id + ":" + endpoint && job.payload == payload
    && job.status == Jobs.Pending && job.attempts == 0 && job.generation == 0 && job.leaseOwner == ""
    && job.scheduledAt == event.occurredAt && job.nextAttemptAt == event.occurredAt
    && job.aggregateId == event.aggregateId && job.causationId == event.id
  }

  /**
   A command that succeeds has a delivery for each endpoint, under the event's and the
   endpoint's id and with the event encoded for it; only a completed job of that id stays.
   */
  lemma EndpointIsTold(encode: Encoder, s: Sys, correlationId: string, cmd: Command, endpoint: string)
    returns (event: Event)
    requires Execute(encode, s.db, s.now, correlationId, cmd).Ok? && endpoint in s.db.endpoints
    ensures var (db, before) := (Execute(encode, s.db, s.now, correlationId, cmd).value.0, s.db.jobs.rows);
            var id := "webhook:" + event.id + ":" + endpoint;
            && event.id !in s.db.events && db.events == s.db.events[event.id := event] && id in db.jobs.rows
            && if id in before && before[id].status == Jobs.Completed then db.jobs.rows[id] == before[id]
               else Tells(db.jobs.rows[id], endpoint, event, encode(endpoint, event.(sequence := 0)))
  {
    var payment;
    payment, event := ExecutedEvent(encode, s.db, s.now, correlationId, cmd);
    EveryEndpointIsNotified(encode, s, correlationId, cmd);
    var db := Execute(encode, s.db, s.now, correlationId, cmd).value.0;
    assert db.events[event.id] == event;
    assert Delivered(encode, s.db.jobs.rows, db.jobs.rows, endpoint, event.(sequence := 0));
  }

  /** While no delivery stands in the way, a command succeeds exactly when it is possible. */
  lemma CommandSucceedsIff(encode: Encoder, s: Sys, cmd: Command)
    requires Quiet(s)
    ensures Execute(encode, s.db, s.now, "", cmd).Ok? <==> Possible(s.db.payments, cmd)
  {
    RowsOwnIds(s);
    SavedRow(s.db.payments, cmd);
    if Possible(s.db.payments, cmd) {
      assert cmd.id != "";
      CommandSucceeds(encode, s, cmd, PaymentAfter(s.db.payments, cmd).value);
    }
  }

  lemma RowsOwnIds(s: Sys)
    requires Inv(s)
    ensures OwnIds(s.db.payments)
  {
    forall id | id in s.db.payments
      ensures s.db.payments[id].id == id && s.db.payments[id].version > 0
    {
      RowFacts(s, id);
    }
  }

  // ----- Sums over a run -----

  /** What a step moved of a payment, by the commands' own amounts. */
  function CapturedBy(id: string, cmd: Command): int {
    if cmd.CapturePayment? && cmd.id == id then cmd.amount else 0
  }

  function RefundedBy(id: string, cmd: Command): int {
    if cmd.RefundPayment? && cmd.id == id then cmd.amount else 0
  }

  type Executed = Result<(Db, PaymentState), CommandError>

  /** The captured and refunded amounts that a command adds, if it succeeds. */
  function Added(outcome: Executed, cmd: Command, id: string): (int, int) {
    match outcome
    case Ok(_) => (CapturedBy(id, cmd), RefundedBy(id, cmd))
    case Err(_) => (0, 0)
  }

  function TableAfter(payments: PaymentStore.Table, outcome: Executed): PaymentStore.Table {
    match outcome
    case Ok((after, _)) => after.payments
    case Err(_) => payments
  }

  ghost function AddedIn(encode: Encoder, s: Sys, step: Step, id: string): (int, int) {
    match step
    case Do(correlationId, cmd) => Added(Execute(encode, s.db, s.now, correlationId, cmd), cmd, id)
    case _ => (0, 0)
  }

  function Plus(a: (int, int), b: (int, int)): (int, int) {
    (a.0 + b.0, a.1 + b.1)
  }

  /** The amounts of the successful captures and refunds of a payment. */
  ghost function Sums(encode: Encoder, s: Sys, steps: seq<Step>, id: string): (int, int) {
    if steps == [] then (0, 0)
    else
      var n := |steps| - 1;
      Plus(Sums(encode, s, steps[..n], id), AddedIn(encode, Run(encode, s, steps[..n]), steps[n], id))
  }

  /** The captured and refunded amounts of a stored payment. */
  function SumsOf(payments: PaymentStore.Table, id: string): (int, int) {
    if id in payments then (payments[id].captured, payments[id].refunded) else (0, 0)
  }

  lemma OutcomeSums(db: Db, outcome: Executed, cmd: Command, at: int, correlationId: string, id: string)
    requires outcome.Ok? ==> Possible(db.payments, cmd) && Done(db, outcome.value.0, cmd, at, correlationId)
    ensures SumsOf(TableAfter(db.payments, outcome), id) == Plus(SumsOf(db.payments, id), Added(outcome, cmd, id))
  {
    if outcome.Ok? {
      LeftSums(db.payments, cmd, outcome.value.0.payments, id);
    }
  }

  lemma CommandSums(encode: Encoder, db: Db, at: int, correlationId: string, cmd: Command, id: string)
    requires OwnIds(db.payments)
    ensures var outcome := Execute(encode, db, at, correlationId, cmd);
            SumsOf(TableAfter(db.payments, outcome), id) == Plus(SumsOf(db.payments, id), Added(outcome, cmd, id))
  {
    if Execute(encode, db, at, correlationId, cmd).Ok? {
      CommandDoes(encode, db, at, correlationId, cmd);
    }
    OutcomeSums(db, Execute(encode, db, at, correlationId, cmd), cmd, at, correlationId, id);
  }

  lemma DoneTable(encode: Encoder, s: Sys, correlationId: string, cmd: Command)
    ensures Next(encode, s, Do(correlationId, cmd)).db.payments ==
            TableAfter(s.db.payments, Execute(encode, s.db, s.now, correlationId, cmd))
  {
  }

  lemma StepSums(encode: Encoder, s: Sys, step: Step, id: string)
    requires OwnIds(s.db.payments)
    ensures SumsOf(Next(encode, s, step).db.payments, id) ==
            Plus(SumsOf(s.db.payments, id), AddedIn(encode, s, step, id))
  {
    match step
    case Do(correlationId, cmd) =>
      CommandSums(encode, s.db, s.now, correlationId, cmd, id);
      DoneTable(encode, s, correlationId, cmd);
    case _ => OtherStepsKeepLog(encode, s, step);
  }

  lemma LeftSums(payments: PaymentStore.Table, cmd: Command, after: PaymentStore.Table, id: string)
    requires cmd.id in after && Leaves(payments, cmd, after[cmd.id]) && after == payments[cmd.id := after[cmd.id]]
    requires Possible(payments, cmd)
    ensures SumsOf(after, id) ==
            (SumsOf(payments, id).0 + CapturedBy(id, cmd), SumsOf(payments, id).1 + RefundedBy(id, cmd))
  {
  }

  lemma RunOwnIds(encode: Encoder, at: int, steps: seq<Step>)
    ensures OwnIds(Run(encode, Start(at), steps).db.payments)
  {
    RunKeepsInv(encode, at, steps);
    RowsOwnIds(Run(encode, Start(at), steps));
  }

  lemma {:induction false} SumsInEveryRun(encode: Encoder, at: int, steps: seq<Step>, id: string)
    ensures SumsOf(Run(encode, Start(at), steps).db.payments, id) == Sums(encode, Start(at), steps, id)
  {
    if steps != [] {
      SumsInEveryRun(encode, at, steps[..|steps| - 1], id);
      RunOwnIds(encode, at, steps[..|steps| - 1]);
      StepSums(encode, Run(encode, Start(at), steps[..|steps| - 1]), steps[|steps| - 1], id);
    }
  }

  /**
   In every run, whatever fails, is repeated or comes in between, a payment's captured and
   refunded amounts are the sums of the amounts of its successful captures and refunds.
   */
  lemma AmountsAreTheSums(encode: Encoder, at: int, steps: seq<Step>, id: string)
    requires id in Run(encode, Start(at), steps).db.payments
    ensures var payment := Run(encode, Start(at), steps).db.payments[id];
            (payment.captured, payment.refunded) == Sums(encode, Start(at), steps, id)
  {
    SumsInEveryRun(encode, at, steps, id);
  }
}
