/**
 The types and versions that events of payments have: which pairs occur in runs, and a run
 for each that does. Amounts of commands are 64-bit, and so are versions.
 */
module EventKinds {
  import opened Outcomes
  import opened Ordering
  import opened Decimal
  import opened Payments
  import opened PaymentEvents
  import opened PaymentEventRuns
  import PaymentStore
  import Jobs
  import JobStore

  /** A payment is created at version 1; its last version follows from its amount. */
  predicate Occurs(eventType: string, version: nat) {
    || (eventType == CREATED && version == 1)
    || ((eventType == AUTHORIZED || eventType == FAILED) && version == 2)
    || (eventType == CANCELLED && version == 3)
    || (eventType == CAPTURED && 3 <= version <= MAX_AMOUNT + 2)
    || (eventType == REFUNDED && 4 <= version < VERSIONS)
  }

  predicate IsEventId(id: string, paymentId: string, eventType: string, version: nat) {
    paymentId != "" && Occurs(eventType, version) && id == TaggedId(paymentId, eventType, version)
  }

  /** The ids that events have: payment, type and version. */
  ghost predicate EventId(id: string) {
    exists paymentId, eventType, version :: IsEventId(id, paymentId, eventType, version)
  }

  // ----- No other kinds occur -----

  /** A stored payment's version counts its operations, which its amount bounds. */
  predicate RowFits(row: PaymentState) {
    row.amount.amount <= MAX_AMOUNT && 0 < row.version < VERSIONS && CountFits(row, row.version - 1)
  }

  ghost predicate RowsFit(payments: PaymentStore.Table) {
    forall id :: id in payments ==> RowFits(payments[id])
  }

  lemma OperationOccurs(row: PaymentState, op: Op, eventType: string)
    requires Valid(row) && RowFits(row) && Apply(row, op).Ok? && Announces(eventType, op)
    requires Valid(Apply(row, op).value)
    ensures RowFits(Apply(row, op).value) && Occurs(eventType, Apply(row, op).value.version)
  {
  }

  /** What a command saves fits, and its event is of a kind that occurs. */
  lemma CommandOccurs(s: Sys, cmd: Command)
    requires Inv(s) && RowsFit(s.db.payments)
    requires PaymentAfter(s.db.payments, cmd).Ok? &&
             PaymentStore.Save(s.db.payments, PaymentAfter(s.db.payments, cmd).value).Ok?
    ensures var payment := PaymentAfter(s.db.payments, cmd).value;
            && payment.id == cmd.id && RowFits(payment) && Occurs(EventTypeOf(cmd), payment.version)
            && PaymentStore.Save(s.db.payments, payment) == Ok(s.db.payments[cmd.id := payment])
  {
    if cmd.id in s.db.payments {
      RowFacts(s, cmd.id);
    }
    SavedPayment(s.db.payments, cmd, Past(s, cmd.id));
    SavedOccurs(s.db.payments, cmd, PaymentAfter(s.db.payments, cmd).value);
  }

  lemma SavedOccurs(payments: PaymentStore.Table, cmd: Command, payment: PaymentState)
    requires PaymentAfter(payments, cmd) == Ok(payment) && Valid(payment) && payment.id == cmd.id
    requires cmd.id in payments ==> Valid(payments[cmd.id]) && RowFits(payments[cmd.id])
    ensures RowFits(payment) && Occurs(EventTypeOf(cmd), payment.version)
  {
    if !cmd.CreatePayment? {
      OperationOccurs(payments[cmd.id], OpOf(cmd).value, EventTypeOf(cmd));
    }
  }

  ghost predicate KindsOk(db: Db) {
    match db
    case Db(payments, events, _, _) => RowsFit(payments) && forall k :: k in events ==> events[k].id == k && EventId(k)
  }

  /** The event of a successful command is of a kind that occurs. */
  lemma ExecutedIsOfAKind(encode: Encoder, s: Sys, correlationId: string, cmd: Command) returns (event: Event)
    requires Inv(s) && KindsOk(s.db) && Execute(encode, s.db, s.now, correlationId, cmd).Ok?
    ensures var db := Execute(encode, s.db, s.now, correlationId, cmd).value.0;
            EventId(event.id) && event.id !in s.db.events && db.events == s.db.events[event.id := event] && KindsOk(db)
  {
    var payment;
    payment, event := ExecutedEvent(encode, s.db, s.now, correlationId, cmd);
    CommandOccurs(s, cmd);
    assert payment.id != "" by {
      assert ValidateEvent(event) == None;
    }
    assert IsEventId(event.id, payment.id, EventTypeOf(cmd), payment.version);
  }

  ghost predicate Kinds(s: Sys) {
    Inv(s) && KindsOk(s.db)
  }

  lemma DoKeepsKinds(encode: Encoder, s: Sys, correlationId: string, cmd: Command)
    requires Kinds(s)
    ensures KindsOk(Next(encode, s, Do(correlationId, cmd)).db)
  {
    if Execute(encode, s.db, s.now, correlationId, cmd).Ok? {
      var event := ExecutedIsOfAKind(encode, s, correlationId, cmd);
    }
  }

  lemma OtherStepsKeepLog(encode: Encoder, s: Sys, step: Step)
    requires !step.Do?
    ensures var db := Next(encode, s, step).db; db.payments == s.db.payments && db.events == s.db.events
  {
  }

  lemma StepKeepsKinds(encode: Encoder, s: Sys, step: Step)
    requires Kinds(s)
    ensures Kinds(Next(encode, s, step))
  {
    StepKeepsInv(encode, s, step);
    if step.Do? {
      DoKeepsKinds(encode, s, step.correlationId, step.cmd);
    } else {
      OtherStepsKeepLog(encode, s, step);
    }
  }

  lemma {:induction false} RunKeepsKinds(encode: Encoder, at: int, steps: seq<Step>)
    ensures Kinds(Run(encode, Start(at), steps))
  {
    if steps != [] {
      RunKeepsKinds(encode, at, steps[..|steps| - 1]);
      StepKeepsKinds(encode, Run(encode, Start(at), steps[..|steps| - 1]), steps[|steps| - 1]);
    }
  }

  // ----- Commands that succeed -----

  /** The clock is set, no job was ever leased, and every registered endpoint has an id. */
  ghost predicate Quiet(s: Sys) {
    match s
    case Sys(Db(_, _, jobs, endpoints), now, _) =>
      && Inv(s) && now != Jobs.NO_TIME && "" !in endpoints
      && forall k :: k in jobs.rows ==> jobs.rows[k].generation == 0 && jobs.rows[k].status == Jobs.Pending
  }

  /** Every event is the one that its payment's history holds at its version. */
  lemma EventIsHeld(s: Sys, k: string)
    requires Inv(s) && k in s.db.events
    ensures var e := s.db.events[k];
            && e.id == k && 1 <= e.version <= |Past(s, e.aggregateId)| && Numbered(e.aggregateId, e, e.version)
  {
    var e := s.db.events[k];
    UnknownHasNoEvents(s, e.aggregateId);
    assert HeldAt(Past(s, e.aggregateId), e.version, e);
    HeldIsNumbered(e.aggregateId, Past(s, e.aggregateId), e);
  }

  lemma HeldIsNumbered(id: string, h: seq<Event>, e: Event)
    requires Chain(id, h) && HeldAt(h, e.version, e)
    ensures Numbered(id, e, e.version)
  {
    ChainAt(id, h, e.version - 1);
  }

  lemma NumberedElsewhere(id: string, e: Event, paymentId: string, eventType: string, version: nat)
    requires Numbered(id, e, e.version) && e.id == TaggedId(paymentId, eventType, version) && ValidType(eventType)
    ensures id == paymentId && e.version == version
  {
    TaggedIdInjective(paymentId, eventType, version, id, e.eventType, e.version);
  }

  lemma NextIdIsNew(s: Sys, id: string, eventType: string)
    requires Inv(s) && ValidType(eventType)
    ensures TaggedId(id, eventType, |Past(s, id)| + 1) !in s.db.events
  {
    var k := TaggedId(id, eventType, |Past(s, id)| + 1);
    if k in s.db.events {
      EventIsHeld(s, k);
      NumberedElsewhere(s.db.events[k].aggregateId, s.db.events[k], id, eventType, |Past(s, id)| + 1);
    }
  }

  lemma QuietFanOut(encode: Encoder, s: Sys, jobs: JobStore.Store, event: Event)
    requires Quiet(s) && jobs.rows == s.db.jobs.rows && event.occurredAt == s.now
    ensures FanOut(encode, jobs, SortedEndpoints(s.db.endpoints), event).Ok?
    ensures Notified(encode, s.db.endpoints, jobs.rows,
            FanOut(encode, jobs, SortedEndpoints(s.db.endpoints), event).value.rows, event)
    ensures forall k :: k in jobs.rows ==> k in FanOut(encode, jobs, SortedEndpoints(s.db.endpoints), event).value.rows
  {
    var ids := SortedEndpoints(s.db.endpoints);
    assert multiset(ids) == multiset(s.db.endpoints) by {
      LexIsTotalOrder();
    }
    EachOnce(ids, s.db.endpoints);
    forall i | 0 <= i < |ids|
      ensures Schedulable(encode, jobs.rows, ids[i], event)
    {
      assert ids[i] in s.db.endpoints;
    }
    FanOutOkIff(encode, jobs, ids, event);
    SortedFanOut(encode, s.db.endpoints, jobs, event);
    FanOutCoversEndpoints(encode, jobs, ids, event);
  }

  lemma ExecuteSucceeds(encode: Encoder, db: Db, at: int, cmd: Command, payment: PaymentState)
    requires PaymentAfter(db.payments, cmd) == Ok(payment) && PaymentStore.Save(db.payments, payment).Ok?
    requires Publish(encode, db.(payments := PaymentStore.Save(db.payments, payment).value), at, "", payment,
             EventTypeOf(cmd)).Ok?
    ensures Execute(encode, db, at, "", cmd).Ok?
  {
  }

  /** In a quiet runtime a command succeeds as soon as the payment allows it. */
  lemma CommandSucceeds(encode: Encoder, s: Sys, cmd: Command, payment: PaymentState)
    requires Quiet(s) && cmd.id != ""
    requires PaymentAfter(s.db.payments, cmd) == Ok(payment) && PaymentStore.Save(s.db.payments, payment).Ok?
    ensures Execute(encode, s.db, s.now, "", cmd).Ok?
  {
    if cmd.id in s.db.payments {
      RowFacts(s, cmd.id);
    }
    SavedPayment(s.db.payments, cmd, Past(s, cmd.id));
    PaymentIsPublished(encode, s, payment, EventTypeOf(cmd));
    ExecuteSucceeds(encode, s.db, s.now, cmd, payment);
  }

  lemma PaymentIsPublished(encode: Encoder, s: Sys, payment: PaymentState, eventType: string)
    requires Quiet(s) && payment.id != "" && payment.version == |Past(s, payment.id)| + 1 && ValidType(eventType)
    requires PaymentStore.Save(s.db.payments, payment).Ok?
    ensures Publish(encode, s.db.(payments := PaymentStore.Save(s.db.payments, payment).value), s.now, "", payment,
            eventType).Ok?
  {
    UnknownHasNoEvents(s, payment.id);
    CauseIsLast(s.db.events, payment.id, Past(s, payment.id));
    NextIdIsNew(s, payment.id, eventType);
    PublishSucceeds(encode, s, s.db.(payments := PaymentStore.Save(s.db.payments, payment).value), payment, eventType);
  }

  lemma PublishSucceeds(encode: Encoder, s: Sys, db: Db, payment: PaymentState, eventType: string)
    requires Quiet(s) && db == s.db.(payments := db.payments) && payment.id != "" && payment.version != 0 &&
             ValidType(eventType)
    requires ListByAggregate(s.db.events, payment.id).Ok? &&
             TaggedId(payment.id, eventType, payment.version) !in s.db.events
    ensures Publish(encode, db, s.now, "", payment, eventType).Ok?
  {
    var cause := Cause(ListByAggregate(s.db.events, payment.id).value, payment.version).0;
    var event := NewEvent(payment, eventType, s.now, "", cause, 0);
    AppendSucceeds(db, event);
    QuietFanOut(encode, s, s.db.jobs.(sequence := s.db.jobs.sequence + 1), event);
  }

  lemma AppendSucceeds(db: Db, event: Event)
    requires ValidateEvent(event) == None && event.id !in db.events
    ensures Append(db, event).Ok? && Append(db, event).value.jobs == db.jobs.(sequence := db.jobs.sequence + 1)
    ensures Append(db, event).value.endpoints == db.endpoints
  {
  }

  /** Every endpoint has a job of the event's. */
  ghost predicate DeliversTo(db: Db, eventId: string) {
    match db
    case Db(_, events, jobs, endpoints) =>
      && eventId in events
      && forall endpoint :: endpoint in endpoints ==>
           DeliveryId(eventId, endpoint) in jobs.rows && jobs.rows[DeliveryId(eventId, endpoint)].causationId == eventId
  }

  /** The jobs that a successful command leaves are those of its publication. */
  lemma ExecutedJobs(encode: Encoder, s: Sys, correlationId: string, cmd: Command) returns (event: Event)
    requires Execute(encode, s.db, s.now, correlationId, cmd).Ok?
    ensures var (db, payment) := Execute(encode, s.db, s.now, correlationId, cmd).value;
            && event.id == TaggedId(payment.id, EventTypeOf(cmd), payment.version) && event.occurredAt == s.now
            && event.id !in s.db.events && db.events == s.db.events[event.id := event] && db.endpoints == s.db.endpoints
            && FanOut(encode, s.db.jobs.(sequence := s.db.jobs.sequence + 1), SortedEndpoints(s.db.endpoints),
               event.(sequence := 0)) == Ok(db.jobs)
  {
    var payment;
    payment, event := ExecutedEvent(encode, s.db, s.now, correlationId, cmd);
  }

  lemma FanOutIsQuiet(encode: Encoder, s: Sys, jobs: JobStore.Store, event: Event, after: JobStore.Store)
    requires Quiet(s) && jobs.rows == s.db.jobs.rows && event.occurredAt == s.now
    requires FanOut(encode, jobs, SortedEndpoints(s.db.endpoints), event) == Ok(after)
    ensures forall k :: k in after.rows ==> after.rows[k].generation == 0 && after.rows[k].status == Jobs.Pending
    ensures forall endpoint :: endpoint in s.db.endpoints ==>
              DeliveryId(event.id, endpoint) in after.rows &&
                after.rows[DeliveryId(event.id, endpoint)].causationId == event.id
  {
    QuietFanOut(encode, s, jobs, event);
    forall endpoint | endpoint in s.db.endpoints
      ensures DeliveryId(event.id, endpoint) in after.rows
      ensures NewDelivery(encode, endpoint, event) == Ok(after.rows[DeliveryId(event.id, endpoint)])
    {
      assert Delivered(encode, jobs.rows, after.rows, endpoint, event);
    }
    forall k | k in after.rows
      ensures after.rows[k].generation == 0 && after.rows[k].status == Jobs.Pending
    {
      if endpoint :| endpoint in s.db.endpoints && k == DeliveryId(event.id, endpoint) {
        assert NewDelivery(encode, endpoint, event) == Ok(after.rows[k]);
      } else {
        assert k in jobs.rows && after.rows[k] == jobs.rows[k];
      }
    }
  }

  /** Such a command leaves the runtime quiet, the payment saved and its event delivered to every endpoint. */
  lemma CommandGoesThrough(encode: Encoder, s: Sys, cmd: Command, payment: PaymentState)
    requires Quiet(s) && cmd.id != ""
    requires PaymentAfter(s.db.payments, cmd) == Ok(payment) && PaymentStore.Save(s.db.payments, payment).Ok?
    ensures var t := Next(encode, s, Do("", cmd));
            && Execute(encode, s.db, s.now, "", cmd).Ok? && Quiet(t) && t.db.endpoints == s.db.endpoints
            && t.db.payments == PaymentStore.Save(s.db.payments, payment).value
            && DeliversTo(t.db, TaggedId(payment.id, EventTypeOf(cmd), payment.version))
  {
    CommandSucceeds(encode, s, cmd, payment);
    var changed, published := ExecutedEvent(encode, s.db, s.now, "", cmd);
    var event := ExecutedJobs(encode, s, "", cmd);
    StepKeepsInv(encode, s, Do("", cmd));
    FanOutIsQuiet(encode, s, s.db.jobs.(sequence := s.db.jobs.sequence + 1), event.(sequence := 0),
      Next(encode, s, Do("", cmd)).db.jobs);
  }

  // ----- A run for every kind -----

  function Ordered(id: string, total: int): PaymentState {
    PaymentState(id, Money(total, "USD"), Status.Pending, 0, 0, 0, 1)
  }

  /** Captures and refunds of one unit. */
  predicate UnitMove(op: Op) {
    match op
    case Capture(amount) => amount == Money(1, "USD")
    case Refund(amount) => amount == Money(1, "USD")
    case _ => true
  }

  predicate UnitMoves(ops: seq<Op>) {
    forall i :: 0 <= i < |ops| ==> UnitMove(ops[i])
  }

  function CommandOf(id: string, op: Op): Command {
    match op
    case Authorize => AuthorizePayment(id)
    case Fail => FailPayment(id)
    case Cancel => CancelPayment(id)
    case Capture(_) => CapturePayment(id, 1, "USD")
    case Refund(_) => RefundPayment(id, 1, "USD")
  }

  /** Creating a payment and carrying out operations on it. */
  function Drive(id: string, total: Int64, ops: seq<Op>): seq<Step> {
    if ops == [] then [Do("", CreatePayment(id, total, "USD"))]
    else Drive(id, total, ops[..|ops| - 1]) + [Do("", CommandOf(id, ops[|ops| - 1]))]
  }

  function LastType(ops: seq<Op>): string {
    if ops == [] then CREATED else EventTypeOf(CommandOf("", ops[|ops| - 1]))
  }

  lemma RunSnoc(encode: Encoder, s: Sys, steps: seq<Step>, step: Step)
    ensures Run(encode, s, steps + [step]) == Next(encode, Run(encode, s, steps), step)
  {
    assert (steps + [step])[..|steps|] == steps;
  }

  /** What a drive reaches: the payment after the operations, and the last event at every endpoint. */
  ghost predicate Arrived(s: Sys, t: Sys, id: string, payment: PaymentState, eventType: string) {
    && Quiet(t) && t.db.endpoints == s.db.endpoints && t.db.payments.Keys == s.db.payments.Keys + {id}
    && t.db.payments[id] == payment && payment.id == id
    && DeliversTo(t.db, TaggedId(id, eventType, payment.version))
  }

  lemma CreationGoesThrough(encode: Encoder, s: Sys, id: string, total: Int64)
    requires Quiet(s) && id != "" && id !in s.db.payments && 0 < total
    ensures Arrived(s, Next(encode, s, Do("", CreatePayment(id, total, "USD"))), id, Ordered(id, total), CREATED)
  {
    var cmd := CreatePayment(id, total, "USD");
    assert ValidCurrency("USD");
    assert Ordered(id, total).id == id;
    Arrives(encode, s, cmd, Ordered(id, total));
  }

  lemma Arrives(encode: Encoder, s: Sys, cmd: Command, payment: PaymentState)
    requires Quiet(s) && cmd.id != "" && payment.id == cmd.id
    requires PaymentAfter(s.db.payments, cmd) == Ok(payment) &&
             PaymentStore.Save(s.db.payments, payment) == Ok(s.db.payments[cmd.id := payment])
    ensures Arrived(s, Next(encode, s, Do("", cmd)), cmd.id, payment, EventTypeOf(cmd))
  {
    CommandGoesThrough(encode, s, cmd, payment);
    AddedKeys(s.db.payments, cmd.id, payment);
  }

  lemma AddedKeys(payments: PaymentStore.Table, id: string, payment: PaymentState)
    ensures payments[id := payment].Keys == payments.Keys + {id}
  {
  }

  lemma OperationGoesThrough(encode: Encoder, s: Sys, id: string, op: Op, after: PaymentState)
    requires Quiet(s) && id != "" && id in s.db.payments && s.db.payments[id].amount.currency == "USD"
    requires UnitMove(op) && Apply(s.db.payments[id], op) == Ok(after) && after.version == s.db.payments[id].version + 1
    ensures Arrived(s, Next(encode, s, Do("", CommandOf(id, op))), id, after, EventTypeOf(CommandOf("", op)))
  {
    RowFacts(s, id);
    OperationIsAllowed(s.db.payments, id, op, after);
    Arrives(encode, s, CommandOf(id, op), after);
  }

  lemma OperationIsAllowed(payments: PaymentStore.Table, id: string, op: Op, after: PaymentState)
    requires id in payments && payments[id].id == id && Restores(payments[id]) && payments[id].amount.currency == "USD"
    requires UnitMove(op) && Apply(payments[id], op) == Ok(after) && after.version == payments[id].version + 1
    ensures PaymentAfter(payments, CommandOf(id, op)) == Ok(after) && after.id == id
    ensures PaymentStore.Save(payments, after) == Ok(payments[id := after])
  {
    VersionMoves(payments[id], op);
    assert ValidCurrency("USD");
    assert OpOf(CommandOf(id, op)) == Ok(op);
  }

  lemma {:induction false} DriveArrives(encode: Encoder, s: Sys, id: string, total: Int64, ops: seq<Op>)
    requires Quiet(s) && id != "" && id !in s.db.payments && 0 < total
    requires Accepts(Ordered(id, total), ops) && UnitMoves(ops) && |ops| + 1 < VERSIONS
    ensures Exec(Ordered(id, total), ops).version == |ops| + 1
    ensures Arrived(s, Run(encode, s, Drive(id, total, ops)), id, Exec(Ordered(id, total), ops), LastType(ops))
  {
    if ops == [] {
      RunSnoc(encode, s, [], Do("", CreatePayment(id, total, "USD")));
      assert [] + [Do("", CreatePayment(id, total, "USD"))] == Drive(id, total, ops);
      CreationGoesThrough(encode, s, id, total);
    } else {
      var init, op := ops[..|ops| - 1], ops[|ops| - 1];
      DriveArrives(encode, s, id, total, init);
      var before := Exec(Ordered(id, total), init);
      ExecKeepsIdentity(Ordered(id, total), init);
      VersionMoves(before, op);
      OperationGoesThrough(encode, Run(encode, s, Drive(id, total, init)), id, op, Exec(Ordered(id, total), ops));
      RunSnoc(encode, s, Drive(id, total, init), Do("", CommandOf(id, op)));
    }
  }

  /** The payment of `total` after `n` unit operations. */
  function UnitState(id: string, total: int, n: nat): PaymentState {
    if n == 0 then Ordered(id, total)
    else
      var captured := if n - 1 < total then n - 1 else total;
      var refunded := n - 1 - captured;
      PaymentState(id, Money(total, "USD"),
                   if captured == 0 then Authorized else if captured < total then PartiallyCaptured
                   else if refunded == 0 then Captured else if refunded < captured then PartiallyRefunded else Refunded,
                   total, captured, refunded, n + 1)
  }

  lemma UnitStateStep(id: string, total: int, n: nat)
    requires 0 < total && n < 1 + 2 * total && n + 2 < VERSIONS
    ensures Apply(UnitState(id, total, n), UnitOp(UnitState(id, total, n))) == Ok(UnitState(id, total, n + 1))
    ensures UnitMove(UnitOp(UnitState(id, total, n)))
  {
  }

  lemma {:induction false} UnitRoute(id: string, total: int, n: nat)
    requires 0 < total && n <= 1 + 2 * total && n + 1 < VERSIONS
    ensures var (s, ops) := (Ordered(id, total), UnitOps(Ordered(id, total), n));
            AfterUnits(s, n) == UnitState(id, total, n) && |ops| == n && Accepts(s, ops) && UnitMoves(ops)
  {
    if n > 0 {
      var s, op := Ordered(id, total), UnitOp(UnitState(id, total, n - 1));
      UnitRoute(id, total, n - 1);
      UnitStateStep(id, total, n - 1);
      UnitOpsRun(s, n - 1);
      AcceptsSnoc(s, UnitOps(s, n - 1), op);
    }
  }

  lemma LastUnit(id: string, total: int, n: nat)
    requires 0 < total && 2 <= n <= 1 + 2 * total && n + 1 < VERSIONS
    ensures LastType(UnitOps(Ordered(id, total), n)) == if n <= 1 + total then CAPTURED else REFUNDED
  {
    UnitRoute(id, total, n - 1);
    UnitStateMoves(id, total, n - 1);
    UnitOpsLast(Ordered(id, total), n);
  }

  lemma UnitStateMoves(id: string, total: int, n: nat)
    requires 0 < total && 1 <= n < 1 + 2 * total
    ensures if n <= total then UnitOp(UnitState(id, total, n)).Capture? else UnitOp(UnitState(id, total, n)).Refund?
  {
  }

  lemma UnitOpsLast(s: PaymentState, n: nat)
    requires n > 0
    ensures LastType(UnitOps(s, n)) == EventTypeOf(CommandOf("", UnitOp(AfterUnits(s, n - 1))))
  {
    var ops, op := UnitOps(s, n - 1), UnitOp(AfterUnits(s, n - 1));
    assert (ops + [op])[|ops + [op]| - 1] == op;
  }

  lemma UnitRouteTo(id: string, eventType: string, version: nat, total: Int64) returns (ops: seq<Op>)
    requires eventType == CAPTURED || eventType == REFUNDED
    requires 0 < total && 3 <= version < VERSIONS && version <= 2 + 2 * total
    requires eventType == CAPTURED <==> version <= 2 + total
    ensures |ops| + 1 == version && Accepts(Ordered(id, total), ops) && UnitMoves(ops) && LastType(ops) == eventType
  {
    ops := UnitOps(Ordered(id, total), version - 1);
    UnitRoute(id, total, version - 1);
    LastUnit(id, total, version - 1);
  }

  /** A total and operations after which the last event is of this kind. */
  lemma RouteTo(id: string, eventType: string, version: nat) returns (total: Int64, ops: seq<Op>)
    requires Occurs(eventType, version)
    ensures 0 < total && |ops| + 1 == version && Accepts(Ordered(id, total), ops) && UnitMoves(ops) &&
            LastType(ops) == eventType
  {
    if eventType == CAPTURED || eventType == REFUNDED {
      total := if eventType == CAPTURED then version - 2 else (version - 1) / 2;
      ops := UnitRouteTo(id, eventType, version, total);
    } else {
      total := 1;
      ops := ShortRoute(id, eventType);
    }
  }

  lemma ShortRoute(id: string, eventType: string) returns (ops: seq<Op>)
    requires eventType == CREATED || eventType == AUTHORIZED || eventType == FAILED || eventType == CANCELLED
    ensures Accepts(Ordered(id, 1), ops) && UnitMoves(ops) && LastType(ops) == eventType
    ensures |ops| == if eventType == CREATED then 0 else if eventType == CANCELLED then 2 else 1
  {
    var s := Ordered(id, 1);
    AcceptsSnoc(s, [], Authorize);
    AcceptsSnoc(s, [], Fail);
    ExecSnoc(s, [], Authorize);
    AcceptsSnoc(s, [] + [Authorize], Cancel);
    ops := if eventType == CREATED then []
           else if eventType == AUTHORIZED then [] + [Authorize]
           else if eventType == FAILED then [] + [Fail]
           else [] + [Authorize] + [Cancel];
  }

  /** The clock is set, so that events have a time. */
  function SetClock(): seq<Step> {
    [RestoreClock(1)]
  }

  lemma SetClockRuns(encode: Encoder, at: int)
    ensures Run(encode, Start(at), SetClock()) == Start(1)
  {
    RunSnoc(encode, Start(at), [], RestoreClock(1));
    assert [] + [RestoreClock(1)] == SetClock();
  }

  lemma {:induction false} RunAppend(encode: Encoder, s: Sys, first: seq<Step>, second: seq<Step>)
    ensures Run(encode, s, first + second) == Run(encode, Run(encode, s, first), second)
  {
    if second == [] {
      assert first + second == first;
    } else {
      var all, init := first + second, second[..|second| - 1];
      RunAppend(encode, s, first, init);
      assert all[..|all| - 1] == first + init;
    }
  }

  lemma KindOccurs(encode: Encoder, at: int, k: string) returns (steps: seq<Step>)
    requires EventId(k)
    ensures k in Run(encode, Start(at), steps).db.events
  {
    var id, eventType, version: nat :| IsEventId(k, id, eventType, version);
    var total, ops := RouteTo(id, eventType, version);
    steps := SetClock() + Drive(id, total, ops);
    SetClockRuns(encode, at);
    RunAppend(encode, Start(at), SetClock(), Drive(id, total, ops));
    DriveFromStart(encode, id, total, ops);
  }

  lemma DriveFromStart(encode: Encoder, id: string, total: Int64, ops: seq<Op>)
    requires id != "" && 0 < total && Accepts(Ordered(id, total), ops) && UnitMoves(ops) && |ops| + 1 < VERSIONS
    ensures TaggedId(id, LastType(ops), |ops| + 1) in Run(encode, Start(1), Drive(id, total, ops)).db.events
  {
    DriveArrives(encode, Start(1), id, total, ops);
  }

  /**
   The ids of events are exactly these: payment, type and version, where the version of a
   creation is 1, of an authorisation or failure 2, of a cancellation 3, of a capture from 3
   up to two more than the largest amount, and of a refund from 4 on. Whatever workers and
   clients do, no event has another id; and each of these is an event of some run.
   */
  lemma {:induction false} EventOccursIff(encode: Encoder, at: int, k: string)
    ensures (exists steps :: k in Run(encode, Start(at), steps).db.events) <==> EventId(k)
  {
    if steps :| k in Run(encode, Start(at), steps).db.events {
      RunKeepsKinds(encode, at, steps);
    }
    if EventId(k) {
      var steps := KindOccurs(encode, at, k);
    }
  }
}
