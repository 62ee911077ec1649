/**
 Every run of the saga runtime: sagas are started, published messages are delivered any
 number of times and in any overlap, a delivery may stop after any of its steps, and
 other clients create payments and run payment commands of their own in between.

 A delivery (orchestrator.go:76-135 with payment_executor.go:37-125) loads its copy of
 the instance, reads the payment and asks the provider, runs one payment transaction,
 saves the advanced copy and publishes the next message, each as its own step.
 */
module SagaRuns {
  import opened Outcomes
  import opened Decimal
  import opened Payments
  import opened Sagas
  import PaymentStore

  datatype Phase =
    | Loaded
    | Replied(approved: bool)    // the provider's final answer awaits its payment command
    | Concluded(succeeded: bool) // the outcome is known, the saga not yet saved
    | Stored(at: int)            // the advanced saga is saved, its message not yet published

  datatype Delivery = Delivery(message: Message, saga: Instance, phase: Phase)

  /** Provider requests, and payment commands that carried out an approved step. */
  datatype Effect =
    | Asked(sagaId: string, step: SagaStep, operationId: string, delivery: nat, answer: Answer)
    | Paid(sagaId: string, step: SagaStep, operationId: string, delivery: nat)

  datatype Sys = Sys(
    payments: PaymentStore.Table,
    sagas: SagaTable,
    messages: set<Message>,
    deliveries: map<nat, Delivery>,
    effects: seq<Effect>)

  const INIT := Sys(map[], map[], {}, map[], [])

  datatype Step =
    | Create(id: string, amount: int, currency: string)
    | Outside(id: string, op: Op)
    | Start(id: string, paymentId: string, payload: Payload, seed: nat, at: int, published: bool)
    | Deliver(d: nat, message: Message)
    | Ask(d: nat, answer: Answer)
    | Pay(d: nat)
    | SaveAdvanced(d: nat, at: int)
    | Publish(d: nat)
    | Drop(d: nat)

  function Published(messages: set<Message>, m: Message): set<Message> {
    if ValidMessage(m) then messages + {m} else messages
  }

  function SetDelivery(s: Sys, d: nat, delivery: Option<Delivery>): Sys {
    s.(deliveries := if delivery.Some? then s.deliveries[d := delivery.value] else s.deliveries - {d})
  }

  predicate Open(i: Instance) {
    i.status == StatusRunning || i.status == StatusCompensating
  }

  function AfterCreate(s: Sys, id: string, amount: int, currency: string): Sys {
    match PaymentStore.Creation(id, amount, currency)
    case Err(_) => s
    case Ok(payment) =>
      match PaymentStore.Save(s.payments, payment)
      case Err(_) => s
      case Ok(payments) => s.(payments := payments)
  }

  function AfterOutside(s: Sys, id: string, op: Op): Sys {
    match Command(s.payments, id, op)
    case None => s
    case Some(payments) => s.(payments := payments)
  }

  function AfterStart(s: Sys, id: string, paymentId: string, payload: Payload, seed: nat, at: int,
                      published: bool): Sys {
    match NewInstance(id, paymentId, payload, seed, at)
    case Err(_) => s
    case Ok(i) =>
      match SaveSaga(s.sagas, i)
      case None => s
      case Some(sagas) =>
        s.(sagas := sagas, messages := if published then Published(s.messages, CurrentMessage(i, at)) else s.messages)
  }

  /** A message is acknowledged without effect when its saga is finished or at another step. */
  function AfterDeliver(s: Sys, d: nat, m: Message): Sys {
    if d in s.deliveries || m !in s.messages || !ValidMessage(m) || m.sagaId !in s.sagas then s
    else if !Open(s.sagas[m.sagaId]) || s.sagas[m.sagaId].currentStep != m.step then s
    else SetDelivery(s, d, Some(Delivery(m, s.sagas[m.sagaId], Loaded)))
  }

  /** Whether reading the payment leads to a request to the provider. */
  predicate Asks(payments: PaymentStore.Table, m: Message) {
    && PaymentStore.Find(payments, m.paymentId).Ok? && Decode(m.payload).Some?
    && !StepAlreadyApplied(PaymentStore.Find(payments, m.paymentId).value, m.step, Decode(m.payload).value)
    && Askable(m, Decode(m.payload).value)
  }

  function AsyncMessages(m: Message, operations: seq<AsyncOperation>): set<Message> {
    set o | o in operations && ValidMessage(AsyncMessage(m, o)) :: AsyncMessage(m, o)
  }

  function AfterAsk(s: Sys, d: nat, delivery: Delivery, answer: Answer): Sys {
    var m := delivery.message;
    var t := s.(effects := if Asks(s.payments, m) then s.effects + [Asked(m.sagaId, m.step, m.operationId, d, answer)]
          else s.effects);
    match Decide(s.payments, m, answer)
    case Rejected => SetDelivery(t, d, None)
    case Waiting(operations) => SetDelivery(t.(messages := s.messages + AsyncMessages(m, operations)), d, None)
    case AlreadyApplied => SetDelivery(t, d, Some(delivery.(phase := Concluded(true))))
    case Answered(approved) => SetDelivery(t, d, Some(delivery.(phase := Replied(approved))))
  }

  function AfterPay(s: Sys, d: nat, delivery: Delivery, approved: bool): Sys {
    var m := delivery.message;
    if Decode(m.payload).None? then SetDelivery(s, d, None)
    else
      match Applied(s.payments, m, approved)
      case None => SetDelivery(s, d, None)
      case Some(payments) =>
        SetDelivery(s.(payments := payments, effects := if approved then
            s.effects + [Paid(m.sagaId, m.step, m.operationId, d)] else s.effects),
                    d, Some(delivery.(phase := Concluded(approved))))
  }

  function AfterSave(s: Sys, d: nat, delivery: Delivery, succeeded: bool, at: int): Sys {
    match Advanced(delivery.saga, delivery.message.step, succeeded, at)
    case Err(_) => SetDelivery(s, d, None)
    case Ok(i) =>
      match SaveSaga(s.sagas, i)
      case None => SetDelivery(s, d, None)
      case Some(sagas) =>
        SetDelivery(s.(sagas := sagas), d, if Open(i) then Some(Delivery(delivery.message, i, Stored(at))) else None)
  }

  /** One step; a step that is not enabled changes nothing. */
  function Next(s: Sys, step: Step): Sys {
    match step
    case Create(id, amount, currency) => AfterCreate(s, id, amount, currency)
    case Outside(id, op) => AfterOutside(s, id, op)
    case Start(id, paymentId, payload, seed, at, published) =>
      AfterStart(s, id, paymentId, payload, seed, at, published)
    case Deliver(d, m) => AfterDeliver(s, d, m)
    case Ask(d, answer) =>
      if d in s.deliveries && s.deliveries[d].phase == Loaded then AfterAsk(s, d, s.deliveries[d], answer) else s
    case Pay(d) =>
      if d in s.deliveries && s.deliveries[d].phase.Replied? then
        AfterPay(s, d, s.deliveries[d], s.deliveries[d].phase.approved)
      else s
    case SaveAdvanced(d, at) =>
      if d in s.deliveries && s.deliveries[d].phase.Concluded? then
        AfterSave(s, d, s.deliveries[d], s.deliveries[d].phase.succeeded, at)
      else s
    case Publish(d) =>
      if d in s.deliveries && s.deliveries[d].phase.Stored? then
        var delivery := s.deliveries[d];
        SetDelivery(s.(messages := Published(s.messages, CurrentMessage(delivery.saga, delivery.phase.at))), d, None)
      else s
    case Drop(d) => SetDelivery(s, d, None)
  }

  function Run(s: Sys, steps: seq<Step>): Sys {
    if steps == [] then s else Next(Run(s, steps[..|steps| - 1]), steps[|steps| - 1])
  }

  // ----- Payments only move forward -----

  ghost predicate PaymentsOk(payments: PaymentStore.Table) {
    forall id :: id in payments ==> PaymentOk(id, payments[id])
  }

  predicate PaymentOk(id: string, p: PaymentState) {
    match p
    case PaymentState(_, amount, status, _, _, _, version) =>
      && p.id == id && Valid(p) && ValidCurrency(amount.currency)
      && (status == Status.Pending ==> version == 1) && (status == Authorized ==> version == 2)
  }

  /** What later states of a payment keep. */
  predicate Later(p: PaymentState, q: PaymentState) {
    match p
    case PaymentState(_, amount, status, authorized, captured, refunded, _) =>
      && q.amount == amount
      && (authorized == amount.amount ==> q.authorized == amount.amount)
      && captured <= q.captured && refunded <= q.refunded
      && (status == Cancelled || status == Failed ==> q.status == status)
  }

  ghost predicate Grows(before: PaymentStore.Table, after: PaymentStore.Table) {
    forall id :: id in before ==> id in after && Later(before[id], after[id])
  }

  lemma ApplyIsLater(id: string, p: PaymentState, op: Op)
    requires PaymentOk(id, p) && Apply(p, op).Ok? && Apply(p, op).value.version == p.version + 1
    ensures PaymentOk(id, Apply(p, op).value) && Later(p, Apply(p, op).value)
  {
    TransitionKeepsValid(p, op);
  }

  lemma FoundIsTheRow(payments: PaymentStore.Table, id: string)
    requires PaymentsOk(payments)
    ensures PaymentStore.Find(payments, id) == if id in payments then Ok(payments[id]) else Err(PaymentStore.NotFound)
  {
    assert id in payments ==> PaymentOk(id, payments[id]);
  }

  lemma CommandGrows(payments: PaymentStore.Table, id: string, op: Op)
    requires PaymentsOk(payments) && Command(payments, id, op).Some?
    ensures var after := Command(payments, id, op).value;
            && PaymentsOk(after) && Grows(payments, after)
            && id in payments && Apply(payments[id], op).Ok? && after == payments[id := Apply(payments[id], op).value]
  {
    FoundIsTheRow(payments, id);
    var p, q := payments[id], Apply(payments[id], op).value;
    assert PaymentOk(id, p);
    VersionMoves(p, op);
    assert q.version == p.version + 1;
    ApplyIsLater(id, p, op);
    assert Command(payments, id, op).value == payments[id := q];
  }

  lemma CreationGrows(s: Sys, id: string, amount: int, currency: string)
    requires PaymentsOk(s.payments)
    ensures var t := AfterCreate(s, id, amount, currency);
            && PaymentsOk(t.payments) && Grows(s.payments, t.payments) && t == s.(payments := t.payments)
  {
    assert id in s.payments ==> PaymentOk(id, s.payments[id]);
    var t := AfterCreate(s, id, amount, currency);
    if t != s {
      assert PaymentOk(id, t.payments[id]);
    }
  }

  // ----- The invariant -----

  /** The payment shows that a step of the saga was carried out. */
  predicate Done(payments: PaymentStore.Table, i: Instance, step: SagaStep) {
    match Decode(i.payload)
    case None => false
    case Some(input) => i.paymentId in payments && StepAlreadyApplied(payments[i.paymentId], step, input)
  }

  predicate PaymentFailed(payments: PaymentStore.Table, i: Instance) {
    i.paymentId in payments && payments[i.paymentId].status == Failed
  }

  /** The only states of an instance, each with what it says about the payment. */
  predicate Shape(payments: PaymentStore.Table, i: Instance) {
    match i.status
    case StatusRunning =>
      && i.compensation == []
      && ((i.currentStep == StepAuthorize && i.completed == [] && i.version == 1)
          || (i.currentStep == StepCapture && i.completed == [StepAuthorize] && i.version == 2 &&
             Done(payments, i, StepAuthorize)))
    case StatusCompleted =>
      && i.currentStep == StepCapture && i.completed == [StepAuthorize, StepCapture] && i.compensation == [] &&
         i.version == 3
      && Done(payments, i, StepAuthorize) && Done(payments, i, StepCapture)
    case StatusCompensating =>
      && i.currentStep == StepCancel && i.completed == [StepAuthorize] && i.compensation == [StepCancel] &&
         i.version == 3
      && Done(payments, i, StepAuthorize)
    case StatusFailed =>
      && i.compensation == []
      && ((i.currentStep == StepAuthorize && i.completed == [] && i.version == 2 && PaymentFailed(payments, i))
          || (i.currentStep == StepCancel && i.completed == [StepAuthorize] && i.version == 4
              && Done(payments, i, StepAuthorize) && Done(payments, i, StepCancel)))
  }

  function StepVersion(step: SagaStep): nat {
    match step
    case StepAuthorize => 1
    case StepCapture => 2
    case StepRefund => 0
    case StepCancel => 3
  }

  /** A published message belongs to a saga; a regular one carries its payload and the id of its step. */
  predicate MessageOk(sagas: SagaTable, m: Message) {
    match m
    case Message(id, sagaId, paymentId, step, operationId, payload, _) =>
      && sagaId in sagas && sagas[sagaId].paymentId == paymentId && step != StepRefund
      && if operationId == "" then
           payload == sagas[sagaId].payload && id == TaggedId(sagaId, StepName(step), StepVersion(step))
         else payload.Operation? && Decode(sagas[sagaId].payload).Some?
  }

  /** A worker's copy of an instance is some earlier state of its row. */
  predicate CopyOk(sagas: SagaTable, i: Instance) {
    match i
    case Instance(id, paymentId, payload, _, _, _, _, _, version, _) =>
      && id in sagas && sagas[id].id == id && sagas[id].paymentId == paymentId && sagas[id].payload == payload
      && version <= sagas[id].version && (version == sagas[id].version ==> sagas[id] == i)
  }

  predicate DeliveryOk(payments: PaymentStore.Table, sagas: SagaTable, delivery: Delivery) {
    match delivery
    case Delivery(m, i, phase) =>
      && MessageOk(sagas, m) && CopyOk(sagas, i) && Shape(payments, i) && Open(i)
      && m.sagaId == i.id
      && match phase
         case Loaded => m.step == i.currentStep
         case Replied(_) => m.step == i.currentStep
         case Concluded(succeeded) =>
           && m.step == i.currentStep
           && if succeeded then Done(payments, i, m.step) else (m.step == StepAuthorize ==> PaymentFailed(payments, i))
         case Stored(_) => true
  }

  ghost predicate SagasOk(payments: PaymentStore.Table, sagas: SagaTable) {
    forall id :: id in sagas ==> sagas[id].id == id && Shape(payments, sagas[id])
  }

  ghost predicate MessagesOk(sagas: SagaTable, messages: set<Message>) {
    forall m :: m in messages ==> MessageOk(sagas, m)
  }

  ghost predicate DeliveriesOk(payments: PaymentStore.Table, sagas: SagaTable, deliveries: map<nat, Delivery>) {
    forall d :: d in deliveries ==> DeliveryOk(payments, sagas, deliveries[d])
  }

  ghost predicate Inv(s: Sys) {
    match s
    case Sys(payments, sagas, messages, deliveries, _) =>
      PaymentsOk(payments) && SagasOk(payments, sagas) && MessagesOk(sagas, messages) &&
        DeliveriesOk(payments, sagas, deliveries)
  }

  lemma DoneLasts(before: PaymentStore.Table, after: PaymentStore.Table, i: Instance, step: SagaStep)
    requires Grows(before, after) && Done(before, i, step)
    ensures Done(after, i, step)
  {
    assert Later(before[i.paymentId], after[i.paymentId]);
  }

  lemma ShapeLasts(before: PaymentStore.Table, after: PaymentStore.Table, i: Instance)
    requires Grows(before, after) && Shape(before, i)
    ensures Shape(after, i)
  {
    forall step | Done(before, i, step)
      ensures Done(after, i, step)
    {
      DoneLasts(before, after, i, step);
    }
    assert PaymentFailed(before, i) ==> Later(before[i.paymentId], after[i.paymentId]);
  }

  lemma DeliveryLasts(before: PaymentStore.Table, after: PaymentStore.Table, sagas: SagaTable, delivery: Delivery)
    requires Grows(before, after) && DeliveryOk(before, sagas, delivery)
    ensures DeliveryOk(after, sagas, delivery)
  {
    var i := delivery.saga;
    ShapeLasts(before, after, i);
    if Done(before, i, delivery.message.step) {
      DoneLasts(before, after, i, delivery.message.step);
    }
    assert PaymentFailed(before, i) ==> Later(before[i.paymentId], after[i.paymentId]);
  }

  /** Payments that move forward keep the invariant. */
  lemma GrowthKeepsInv(s: Sys, payments: PaymentStore.Table)
    requires Inv(s) && PaymentsOk(payments) && Grows(s.payments, payments)
    ensures Inv(s.(payments := payments))
  {
    forall id | id in s.sagas
      ensures s.sagas[id].id == id && Shape(payments, s.sagas[id])
    {
      ShapeLasts(s.payments, payments, s.sagas[id]);
    }
    forall d | d in s.deliveries
      ensures DeliveryOk(payments, s.sagas, s.deliveries[d])
    {
      DeliveryLasts(s.payments, payments, s.sagas, s.deliveries[d]);
    }
  }

  /** Replacing or removing one delivery. */
  lemma DeliveryKeepsInv(s: Sys, d: nat, delivery: Option<Delivery>)
    requires Inv(s) && (delivery.Some? ==> DeliveryOk(s.payments, s.sagas, delivery.value))
    ensures Inv(SetDelivery(s, d, delivery))
  {
  }

  lemma MessagesKeepInv(s: Sys, messages: set<Message>)
    requires Inv(s) && MessagesOk(s.sagas, messages)
    ensures Inv(s.(messages := messages))
  {
  }

  lemma EffectsKeepInv(s: Sys, effects: seq<Effect>)
    requires Inv(s)
    ensures Inv(s.(effects := effects))
  {
  }

  /** A row that moves to its next version, or a new row. */
  predicate RowAdvances(sagas: SagaTable, i: Instance) {
    match i
    case Instance(id, paymentId, payload, _, _, _, _, _, version, _) =>
      id in sagas ==>
          sagas[id].id == id && sagas[id].paymentId == paymentId && sagas[id].payload == payload &&
          version == sagas[id].version + 1
  }

  lemma CopyLasts(sagas: SagaTable, i: Instance, copy: Instance)
    requires RowAdvances(sagas, i) && CopyOk(sagas, copy)
    ensures CopyOk(sagas[i.id := i], copy)
  {
  }

  lemma MessageLasts(sagas: SagaTable, i: Instance, m: Message)
    requires RowAdvances(sagas, i) && MessageOk(sagas, m)
    ensures MessageOk(sagas[i.id := i], m)
  {
  }

  lemma DeliveryOutlivesSave(payments: PaymentStore.Table, sagas: SagaTable, i: Instance, delivery: Delivery)
    requires RowAdvances(sagas, i) && DeliveryOk(payments, sagas, delivery)
    ensures DeliveryOk(payments, sagas[i.id := i], delivery)
  {
    CopyLasts(sagas, i, delivery.saga);
    MessageLasts(sagas, i, delivery.message);
  }

  lemma SaveKeepsInv(s: Sys, i: Instance)
    requires Inv(s) && Shape(s.payments, i) && RowAdvances(s.sagas, i)
    ensures Inv(s.(sagas := s.sagas[i.id := i]))
  {
    var sagas := s.sagas[i.id := i];
    forall m | m in s.messages
      ensures MessageOk(sagas, m)
    {
      MessageLasts(s.sagas, i, m);
    }
    forall d | d in s.deliveries
      ensures DeliveryOk(s.payments, sagas, s.deliveries[d])
    {
      DeliveryOutlivesSave(s.payments, s.sagas, i, s.deliveries[d]);
    }
  }

  // ----- One lemma per step -----

  lemma CurrentMessageOk(payments: PaymentStore.Table, sagas: SagaTable, i: Instance, at: int)
    requires CopyOk(sagas, i) && Shape(payments, i) && Open(i)
    ensures MessageOk(sagas, CurrentMessage(i, at))
  {
  }

  lemma StartKeepsInv(s: Sys, id: string, paymentId: string, payload: Payload, seed: nat, at: int, published: bool)
    requires Inv(s)
    ensures Inv(AfterStart(s, id, paymentId, payload, seed, at, published))
    ensures id in s.sagas ==> AfterStart(s, id, paymentId, payload, seed, at, published) == s
  {
    if NewInstance(id, paymentId, payload, seed, at).Ok? {
      var i := NewInstance(id, paymentId, payload, seed, at).value;
      if id in s.sagas {
        assert Shape(s.payments, s.sagas[id]);
      } else {
        SaveKeepsInv(s, i);
        var t := s.(sagas := s.sagas[id := i]);
        CurrentMessageOk(t.payments, t.sagas, i, at);
        MessagesKeepInv(t, Published(s.messages, CurrentMessage(i, at)));
      }
    }
  }

  lemma DeliverKeepsInv(s: Sys, d: nat, m: Message)
    requires Inv(s)
    ensures Inv(AfterDeliver(s, d, m))
  {
    if AfterDeliver(s, d, m) != s {
      assert MessageOk(s.sagas, m) && Shape(s.payments, s.sagas[m.sagaId]);
      DeliveryKeepsInv(s, d, Some(Delivery(m, s.sagas[m.sagaId], Loaded)));
    }
  }

  /** What the executor takes for applied is done, also when an operation's message asks. */
  lemma AppliedIsDone(s: Sys, delivery: Delivery)
    requires Inv(s) && DeliveryOk(s.payments, s.sagas, delivery)
    requires delivery.message.paymentId in s.payments && Decode(delivery.message.payload).Some?
    requires StepAlreadyApplied(s.payments[delivery.message.paymentId], delivery.message.step,
             Decode(delivery.message.payload).value)
    ensures Done(s.payments, delivery.saga, delivery.message.step)
  {
  }

  lemma AsyncMessagesOk(sagas: SagaTable, m: Message, operations: seq<AsyncOperation>)
    requires MessageOk(sagas, m) && Decode(m.payload).Some? && ValidOperations(operations)
    ensures MessagesOk(sagas, AsyncMessages(m, operations))
  {
    forall x | x in AsyncMessages(m, operations)
      ensures MessageOk(sagas, x)
    {
      var o :| o in operations && x == AsyncMessage(m, o);
      var n :| 0 <= n < |operations| && operations[n] == o;
      assert ValidOperation(operations[n]);
    }
  }

  lemma AskKeepsInv(s: Sys, d: nat, delivery: Delivery, answer: Answer)
    requires Inv(s) && DeliveryOk(s.payments, s.sagas, delivery) && delivery.phase == Loaded
    ensures Inv(AfterAsk(s, d, delivery, answer))
  {
    var m := delivery.message;
    FoundIsTheRow(s.payments, m.paymentId);
    var t := s.(effects := if Asks(s.payments, m) then s.effects + [Asked(m.sagaId, m.step, m.operationId, d, answer)]
          else s.effects);
    EffectsKeepInv(s, t.effects);
    match Decide(s.payments, m, answer)
    case Rejected => DeliveryKeepsInv(t, d, None);
    case Waiting(operations) =>
      AsyncMessagesOk(s.sagas, m, operations);
      MessagesKeepInv(t, s.messages + AsyncMessages(m, operations));
      DeliveryKeepsInv(t.(messages := s.messages + AsyncMessages(m, operations)), d, None);
    case AlreadyApplied =>
      AppliedIsDone(s, delivery);
      DeliveryKeepsInv(t, d, Some(delivery.(phase := Concluded(true))));
    case Answered(approved) =>
      DeliveryKeepsInv(t, d, Some(delivery.(phase := Replied(approved))));
  }

  /** After the executor's command the payment shows its step, or its failure. */
  lemma {:induction false} PaidIsDone(s: Sys, delivery: Delivery, approved: bool)
    requires Inv(s) && DeliveryOk(s.payments, s.sagas, delivery) && delivery.phase == Replied(approved)
    requires Decode(delivery.message.payload).Some? && Applied(s.payments, delivery.message, approved).Some?
    ensures var after := Applied(s.payments, delivery.message, approved).value;
            PaymentsOk(after) && Grows(s.payments, after)
    ensures var after := Applied(s.payments, delivery.message, approved).value;
            DeliveryOk(after, s.sagas, delivery.(phase := Concluded(approved)))
    ensures approved && delivery.message.step == StepCapture ==> delivery.message.operationId == ""
  {
    var m := delivery.message;
    var after := Applied(s.payments, m, approved).value;
    match OpFor(m, approved).value {
      case None => assert after == s.payments;
      case Some(op) => CommandGrows(s.payments, m.paymentId, op);
    }
    DeliveryLasts(s.payments, after, s.sagas, delivery);
    if approved {
      PaidShows(s, delivery, after);
    }
  }

  lemma PaidShows(s: Sys, delivery: Delivery, after: PaymentStore.Table)
    requires Inv(s) && DeliveryOk(s.payments, s.sagas, delivery)
    requires Decode(delivery.message.payload).Some? && Applied(s.payments, delivery.message, true) == Some(after)
    ensures Done(after, delivery.saga, delivery.message.step)
    ensures delivery.message.step == StepCapture ==> delivery.message.operationId == ""
  {
    var m := delivery.message;
    var op := OpFor(m, true).value.value;
    CommandGrows(s.payments, m.paymentId, op);
    assert PaymentOk(m.paymentId, s.payments[m.paymentId]);
  }

  lemma PayKeepsInv(s: Sys, d: nat, delivery: Delivery, approved: bool)
    requires Inv(s) && DeliveryOk(s.payments, s.sagas, delivery) && delivery.phase == Replied(approved)
    ensures Inv(AfterPay(s, d, delivery, approved))
  {
    var m := delivery.message;
    if Decode(m.payload).None? || Applied(s.payments, m, approved).None? {
      DeliveryKeepsInv(s, d, None);
    } else {
      var after := Applied(s.payments, m, approved).value;
      PaidIsDone(s, delivery, approved);
      GrowthKeepsInv(s, after);
      var t := s.(payments := after);
      var effects := if approved then s.effects + [Paid(m.sagaId, m.step, m.operationId, d)] else s.effects;
      EffectsKeepInv(t, effects);
      DeliveryKeepsInv(t.(effects := effects), d, Some(delivery.(phase := Concluded(approved))));
    }
  }

  /** A saved advance starts from the stored row and reaches its next state. */
  lemma AdvanceIsShaped(s: Sys, delivery: Delivery, succeeded: bool, at: int)
    requires Inv(s) && DeliveryOk(s.payments, s.sagas, delivery) && delivery.phase == Concluded(succeeded)
    requires Advanced(delivery.saga, delivery.message.step, succeeded, at).Ok?
    ensures var i := Advanced(delivery.saga, delivery.message.step, succeeded, at).value;
            && i.id == delivery.saga.id && i.version == delivery.saga.version + 1
            && Shape(s.payments, i)
            && i.paymentId == delivery.saga.paymentId && i.payload == delivery.saga.payload
  {
  }

  lemma SaveAdvancedKeepsInv(s: Sys, d: nat, delivery: Delivery, succeeded: bool, at: int)
    requires Inv(s) && DeliveryOk(s.payments, s.sagas, delivery) && delivery.phase == Concluded(succeeded)
    ensures Inv(AfterSave(s, d, delivery, succeeded, at))
  {
    var advanced := Advanced(delivery.saga, delivery.message.step, succeeded, at);
    if advanced.Err? || SaveSaga(s.sagas, advanced.value).None? {
      if advanced.Ok? {
        AdvanceIsShaped(s, delivery, succeeded, at);
      }
      DeliveryKeepsInv(s, d, None);
    } else {
      var i := advanced.value;
      AdvanceIsShaped(s, delivery, succeeded, at);
      SaveKeepsInv(s, i);
      var t := s.(sagas := s.sagas[i.id := i]);
      MessageLasts(s.sagas, i, delivery.message);
      DeliveryKeepsInv(t, d, if Open(i) then Some(Delivery(delivery.message, i, Stored(at))) else None);
    }
  }

  lemma PublishKeepsInv(s: Sys, d: nat)
    requires Inv(s)
    ensures Inv(Next(s, Publish(d)))
  {
    if d in s.deliveries && s.deliveries[d].phase.Stored? {
      var delivery := s.deliveries[d];
      assert DeliveryOk(s.payments, s.sagas, delivery);
      var m := CurrentMessage(delivery.saga, delivery.phase.at);
      CurrentMessageOk(s.payments, s.sagas, delivery.saga, delivery.phase.at);
      MessagesKeepInv(s, Published(s.messages, m));
      DeliveryKeepsInv(s.(messages := Published(s.messages, m)), d, None);
    }
  }

  lemma StepKeepsInv(s: Sys, step: Step)
    requires Inv(s)
    ensures Inv(Next(s, step))
  {
    match step
    case Create(id, amount, currency) =>
      CreationGrows(s, id, amount, currency);
      GrowthKeepsInv(s, AfterCreate(s, id, amount, currency).payments);
    case Outside(id, op) =>
      if Command(s.payments, id, op).Some? {
        CommandGrows(s.payments, id, op);
        GrowthKeepsInv(s, Command(s.payments, id, op).value);
      }
    case Start(id, paymentId, payload, seed, at, published) =>
      StartKeepsInv(s, id, paymentId, payload, seed, at, published);
    case Deliver(d, m) => DeliverKeepsInv(s, d, m);
    case Ask(d, answer) =>
      if d in s.deliveries && s.deliveries[d].phase == Loaded {
        AskKeepsInv(s, d, s.deliveries[d], answer);
      }
    case Pay(d) =>
      if d in s.deliveries && s.deliveries[d].phase.Replied? {
        PayKeepsInv(s, d, s.deliveries[d], s.deliveries[d].phase.approved);
      }
    case SaveAdvanced(d, at) =>
      if d in s.deliveries && s.deliveries[d].phase.Concluded? {
        SaveAdvancedKeepsInv(s, d, s.deliveries[d], s.deliveries[d].phase.succeeded, at);
      }
    case Publish(d) => PublishKeepsInv(s, d);
    case Drop(d) => DeliveryKeepsInv(s, d, None);
  }

  /**
   In every run each payment is valid, each instance has one of its six shapes with the
   evidence in its payment, and each message and stale copy fits its row.
   */
  lemma {:induction false} RunKeepsInv(steps: seq<Step>)
    ensures Inv(Run(INIT, steps))
    ensures var s := Run(INIT, steps);
            && PaymentsOk(s.payments) && SagasOk(s.payments, s.sagas)
            && MessagesOk(s.sagas, s.messages) && DeliveriesOk(s.payments, s.sagas, s.deliveries)
  {
    if steps != [] {
      RunKeepsInv(steps[..|steps| - 1]);
      StepKeepsInv(Run(INIT, steps[..|steps| - 1]), steps[|steps| - 1]);
    }
  }
}
