/** What the runtime adds when the deliveries of one saga do not overlap. */
module SagaSerial {
  import opened Outcomes
  import opened Decimal
  import opened Payments
  import opened Sagas
  import opened SagaRuns
  import opened SagaTheorems
  import opened SagaEffects
  import PaymentStore

  /**
   Whether an effect repeats a step that was carried out. A capture's asynchronous
   operations may still be asked about.
   */
  predicate Repeats(effects: seq<Effect>, e: Effect) {
    match e
    case Paid(sagaId, step, _, _) => PaidIn(effects, sagaId, step)
    case Asked(sagaId, step, operationId, _, _) =>
      (operationId == "" || step != StepCapture) && PaidIn(effects, sagaId, step)
  }

  predicate OnceEach(effects: seq<Effect>) {
    effects == [] || (OnceEach(effects[..|effects| - 1]) && !Repeats(effects[..|effects| - 1], effects[|effects| - 1]))
  }

  ghost predicate Alone(deliveries: map<nat, Delivery>) {
    forall d, e ::
        d in deliveries && e in deliveries && deliveries[d].message.sagaId == deliveries[e].message.sagaId ==> d == e
  }

  /** An approved step that awaits its command has not been carried out. */
  predicate Unpaid(effects: seq<Effect>, delivery: Delivery) {
    match delivery
    case Delivery(m, _, phase) =>
      phase == Replied(true) && (m.operationId == "" || m.step != StepCapture) ==> !PaidIn(effects, m.sagaId, m.step)
  }

  ghost predicate AllUnpaid(effects: seq<Effect>, deliveries: map<nat, Delivery>) {
    forall d :: d in deliveries ==> Unpaid(effects, deliveries[d])
  }

  ghost predicate SerialInv(s: Sys) {
    match s
    case Sys(_, _, _, deliveries, effects) =>
      Alone(deliveries) && AllUnpaid(effects, deliveries) && OnceEach(effects)
  }

  ghost predicate NoneFor(s: Sys, sagaId: string) {
    forall d :: d in s.deliveries ==> s.deliveries[d].message.sagaId != sagaId
  }

  /** Deliveries that were there before, and no newly approved ones. */
  ghost predicate Derived(before: map<nat, Delivery>, after: map<nat, Delivery>) {
    forall d :: d in after ==>
        d in before && after[d].message == before[d].message &&
        (after[d].phase == before[d].phase || after[d].phase != Replied(true))
  }

  lemma DerivedIsSerial(before: map<nat, Delivery>, after: map<nat, Delivery>, effects: seq<Effect>)
    requires Alone(before) && AllUnpaid(effects, before) && Derived(before, after)
    ensures Alone(after) && AllUnpaid(effects, after)
  {
    forall d | d in after
      ensures Unpaid(effects, after[d])
    {
      assert Unpaid(effects, before[d]);
    }
  }

  lemma DeliverIsSerial(s: Sys, d: nat, m: Message)
    requires Inv(s) && SerialInv(s) && NoneFor(s, m.sagaId)
    ensures SerialInv(AfterDeliver(s, d, m))
  {
    var t := AfterDeliver(s, d, m);
    forall e | e in t.deliveries
      ensures Unpaid(t.effects, t.deliveries[e])
    {
      assert e in s.deliveries ==> Unpaid(s.effects, s.deliveries[e]);
    }
  }

  lemma QuietDeliveries(s: Sys, step: Step)
    requires !step.Ask? && !step.Pay? && !step.Deliver?
    ensures Next(s, step).effects == s.effects && Derived(s.deliveries, Next(s, step).deliveries)
  {
  }

  lemma SerialFromParts(s: Sys, t: Sys)
    requires SerialInv(s) && t.effects == s.effects && Derived(s.deliveries, t.deliveries)
    ensures SerialInv(t)
  {
    DerivedIsSerial(s.deliveries, t.deliveries, s.effects);
  }

  /** One delivery is replaced by one of the same message, or removed. */
  lemma AloneReplaced(before: map<nat, Delivery>, after: map<nat, Delivery>)
    requires Alone(before) && forall d :: d in after ==> d in before && after[d].message == before[d].message
    ensures Alone(after)
  {
  }

  /** Steps without provider request or carried-out command. */
  lemma QuietStep(s: Sys, step: Step)
    requires Inv(s) && SerialInv(s) && !step.Ask? && !step.Pay?
    requires step.Deliver? ==> NoneFor(s, step.message.sagaId)
    ensures SerialInv(Next(s, step))
  {
    if step.Deliver? {
      DeliverIsSerial(s, step.d, step.message);
    } else {
      QuietDeliveries(s, step);
      SerialFromParts(s, Next(s, step));
    }
  }

  /** A request means that the payment does not show the step yet. */
  lemma AskedIsNotDone(s: Sys, delivery: Delivery)
    requires Inv(s) && DeliveryOk(s.payments, s.sagas, delivery) && Asks(s.payments, delivery.message)
    requires delivery.message.operationId == "" || delivery.message.step != StepCapture
    ensures !Done(s.payments, s.sagas[delivery.message.sagaId], delivery.message.step)
  {
    FoundIsTheRow(s.payments, delivery.message.paymentId);
  }

  lemma AskedSnoc(effects: seq<Effect>, e: Effect)
    requires e.Asked? && OnceEach(effects) && !Repeats(effects, e)
    ensures OnceEach(effects + [e])
    ensures forall x, t :: PaidIn(effects + [e], x, t) <==> PaidIn(effects, x, t)
  {
    assert (effects + [e])[..|effects|] == effects;
    forall x, t
      ensures PaidIn(effects + [e], x, t) <==> PaidIn(effects, x, t)
    {
      PaidInSnoc(effects, e, x, t);
    }
  }

  /** A request repeats nothing that was carried out, and carries nothing out itself. */
  lemma AskedEffects(s: Sys, d: nat, delivery: Delivery, answer: Answer, effects: seq<Effect>)
    requires Shown(s) && SerialInv(s) && DeliveryOk(s.payments, s.sagas, delivery)
    requires var m := delivery.message;
             effects == if Asks(s.payments, m) then s.effects + [Asked(m.sagaId, m.step, m.operationId, d, answer)]
                 else s.effects
    ensures OnceEach(effects)
    ensures forall x, t :: PaidIn(effects, x, t) <==> PaidIn(s.effects, x, t)
    ensures Asks(s.payments, delivery.message) ==> Unpaid(effects, delivery.(phase := Replied(true)))
  {
    var m := delivery.message;
    if Asks(s.payments, m) {
      if m.operationId == "" || m.step != StepCapture {
        AskedIsNotDone(s, delivery);
      }
      AskedSnoc(s.effects, Asked(m.sagaId, m.step, m.operationId, d, answer));
    }
  }

  lemma SameUnpaid(before: seq<Effect>, after: seq<Effect>, deliveries: map<nat, Delivery>)
    requires forall x, t :: PaidIn(after, x, t) <==> PaidIn(before, x, t)
    requires AllUnpaid(before, deliveries)
    ensures AllUnpaid(after, deliveries)
  {
    forall d | d in deliveries
      ensures Unpaid(after, deliveries[d])
    {
      assert Unpaid(before, deliveries[d]);
    }
  }

  /** One delivery moves on or ends, and nothing more is paid for. */
  lemma SerialAfterAsk(s: Sys, t: Sys, d: nat)
    requires SerialInv(s) && OnceEach(t.effects) && d in s.deliveries
    requires forall x, step :: PaidIn(t.effects, x, step) <==> PaidIn(s.effects, x, step)
    requires forall e :: e in t.deliveries ==> e in s.deliveries && t.deliveries[e].message == s.deliveries[e].message
    requires forall e :: e in t.deliveries && e != d ==> t.deliveries[e] == s.deliveries[e]
    requires d in t.deliveries ==> Unpaid(t.effects, t.deliveries[d])
    ensures SerialInv(t)
  {
    SameUnpaid(s.effects, t.effects, s.deliveries);
    AloneReplaced(s.deliveries, t.deliveries);
    OneReplacedUnpaid(t.effects, s.deliveries, t.deliveries, d);
  }

  lemma AskIsSerial(s: Sys, d: nat, delivery: Delivery, answer: Answer)
    requires Shown(s) && SerialInv(s) && d in s.deliveries && s.deliveries[d] == delivery && delivery.phase == Loaded
    ensures SerialInv(AfterAsk(s, d, delivery, answer))
  {
    var t := AfterAsk(s, d, delivery, answer);
    AskedDeliveries(s, d, delivery, answer);
    ReplyIsUnpaid(s, t, d, delivery, answer);
    SerialAfterAsk(s, t, d);
  }

  lemma ReplyIsUnpaid(s: Sys, t: Sys, d: nat, delivery: Delivery, answer: Answer)
    requires Shown(s) && SerialInv(s) && d in s.deliveries && s.deliveries[d] == delivery
    requires var m := delivery.message;
             t.effects == if Asks(s.payments, m) then s.effects + [Asked(m.sagaId, m.step, m.operationId, d, answer)]
                 else s.effects
    requires d in t.deliveries ==> t.deliveries[d] == delivery.(phase := t.deliveries[d].phase)
    requires d in t.deliveries && t.deliveries[d].phase == Replied(true) ==> Asks(s.payments, delivery.message)
    ensures OnceEach(t.effects) && forall x, step :: PaidIn(t.effects, x, step) <==> PaidIn(s.effects, x, step)
    ensures d in t.deliveries ==> Unpaid(t.effects, t.deliveries[d])
  {
    assert DeliveryOk(s.payments, s.sagas, delivery);
    AskedEffects(s, d, delivery, answer, t.effects);
  }

  lemma OneReplacedUnpaid(effects: seq<Effect>, before: map<nat, Delivery>, after: map<nat, Delivery>, d: nat)
    requires AllUnpaid(effects, before) && (d in after ==> Unpaid(effects, after[d]))
    requires forall e :: e in after && e != d ==> e in before && after[e] == before[e]
    ensures AllUnpaid(effects, after)
  {
    forall e | e in after
      ensures Unpaid(effects, after[e])
    {
      assert e != d ==> Unpaid(effects, before[e]);
    }
  }

  lemma AskedDeliveries(s: Sys, d: nat, delivery: Delivery, answer: Answer)
    requires d in s.deliveries && s.deliveries[d] == delivery
    ensures var (t, m) := (AfterAsk(s, d, delivery, answer), delivery.message);
            && t.effects ==
               (if Asks(s.payments, m) then s.effects + [Asked(m.sagaId, m.step, m.operationId, d, answer)]
                   else s.effects)
            && (d in t.deliveries ==> t.deliveries[d] == delivery.(phase := t.deliveries[d].phase))
            && (d in t.deliveries && t.deliveries[d].phase == Replied(true) ==> Asks(s.payments, m))
            && (forall e ::
                 e in t.deliveries ==> e in s.deliveries && t.deliveries[e].message == s.deliveries[e].message)
            && (forall e :: e in t.deliveries && e != d ==> t.deliveries[e] == s.deliveries[e])
  {
  }

  lemma PaidSnoc(effects: seq<Effect>, sagaId: string, step: SagaStep, operationId: string, d: nat)
    requires OnceEach(effects) && !PaidIn(effects, sagaId, step)
    ensures OnceEach(effects + [Paid(sagaId, step, operationId, d)])
    ensures forall x, t ::
              PaidIn(effects + [Paid(sagaId, step, operationId, d)], x, t) <==>
              PaidIn(effects, x, t) || (x == sagaId && t == step)
  {
    assert (effects + [Paid(sagaId, step, operationId, d)])[..|effects|] == effects;
    forall x, t
      ensures PaidIn(effects + [Paid(sagaId, step, operationId, d)], x, t) <==>
              PaidIn(effects, x, t) || (x == sagaId && t == step)
    {
      PaidInSnoc(effects, Paid(sagaId, step, operationId, d), x, t);
    }
  }

  lemma PaidElsewhere(before: seq<Effect>, after: seq<Effect>, deliveries: map<nat, Delivery>, d: nat)
    requires d in deliveries && Alone(deliveries) && AllUnpaid(before, deliveries)
    requires forall x, t :: PaidIn(after, x, t) ==> PaidIn(before, x, t) || x == deliveries[d].message.sagaId
    ensures forall e :: e in deliveries && e != d ==> Unpaid(after, deliveries[e])
  {
    forall e | e in deliveries && e != d
      ensures Unpaid(after, deliveries[e])
    {
      assert Unpaid(before, deliveries[e]);
      assert deliveries[e].message.sagaId != deliveries[d].message.sagaId;
    }
  }

  /** An approved step is carried out for the first time. */
  lemma ApprovedPayIsSerial(s: Sys, d: nat, delivery: Delivery)
    requires Inv(s) && SerialInv(s) && d in s.deliveries && s.deliveries[d] == delivery &&
             delivery.phase == Replied(true)
    requires Decode(delivery.message.payload).Some? && Applied(s.payments, delivery.message, true).Some?
    ensures SerialInv(AfterPay(s, d, delivery, true))
  {
    var m, after := delivery.message, Applied(s.payments, delivery.message, true).value;
    assert DeliveryOk(s.payments, s.sagas, delivery) && Unpaid(s.effects, delivery);
    PaidIsDone(s, delivery, true);
    PaidSnoc(s.effects, m.sagaId, m.step, m.operationId, d);
    var effects := s.effects + [Paid(m.sagaId, m.step, m.operationId, d)];
    PaidElsewhere(s.effects, effects, s.deliveries, d);
    assert Unpaid(effects, delivery.(phase := Concluded(true)));
    AloneReplaced(s.deliveries, s.deliveries[d := delivery.(phase := Concluded(true))]);
    assert AfterPay(s, d, delivery, true)
        == s.(payments := after, effects := effects,
          deliveries := s.deliveries[d := delivery.(phase := Concluded(true))]);
  }

  /** A command that carries out nothing approved adds no effect. */
  lemma QuietPay(s: Sys, d: nat, delivery: Delivery, approved: bool)
    requires d in s.deliveries && s.deliveries[d] == delivery
    requires !(approved && Decode(delivery.message.payload).Some? && Applied(s.payments, delivery.message, true).Some?)
    ensures var t := AfterPay(s, d, delivery, approved);
            t.effects == s.effects && t.sagas == s.sagas && Derived(s.deliveries, t.deliveries)
  {
  }

  lemma PayIsSerial(s: Sys, d: nat, delivery: Delivery, approved: bool)
    requires Inv(s) && SerialInv(s) && d in s.deliveries && s.deliveries[d] == delivery &&
             delivery.phase == Replied(approved)
    ensures SerialInv(AfterPay(s, d, delivery, approved))
  {
    if approved && Decode(delivery.message.payload).Some? && Applied(s.payments, delivery.message, true).Some? {
      ApprovedPayIsSerial(s, d, delivery);
    } else {
      assert DeliveryOk(s.payments, s.sagas, delivery);
      QuietPay(s, d, delivery, approved);
      SerialFromParts(s, AfterPay(s, d, delivery, approved));
    }
  }

  /** No delivery begins while another one of the same saga is under way. */
  ghost predicate Serial(steps: seq<Step>) {
    steps == [] || (
      var init, last := steps[..|steps| - 1], steps[|steps| - 1];
      Serial(init) && (last.Deliver? ==> NoneFor(Run(INIT, init), last.message.sagaId)))
  }

  lemma {:induction false} SerialRun(steps: seq<Step>)
    requires Serial(steps)
    ensures SerialInv(Run(INIT, steps))
  {
    if steps != [] {
      var init, last := steps[..|steps| - 1], steps[|steps| - 1];
      var s := Run(INIT, init);
      SerialRun(init);
      EffectsShow(init);
      if last.Ask? && last.d in s.deliveries && s.deliveries[last.d].phase == Loaded {
        AskIsSerial(s, last.d, s.deliveries[last.d], last.answer);
      } else if last.Pay? && last.d in s.deliveries && s.deliveries[last.d].phase.Replied? {
        PayIsSerial(s, last.d, s.deliveries[last.d], s.deliveries[last.d].phase.approved);
      } else if !last.Ask? && !last.Pay? {
        QuietStep(s, last);
      }
    }
  }

  /**
   When the deliveries of a saga do not overlap, each of its steps is carried out on the
   payment at most once, however often its message is redelivered and wherever a
   delivery stops, and the provider is not asked for a step that was carried out.
   */
  lemma EachStepOnce(steps: seq<Step>, i: nat, j: nat)
    requires Serial(steps) && i < j < |Run(INIT, steps).effects| && Run(INIT, steps).effects[i].Paid?
    ensures var (first, second) := (Run(INIT, steps).effects[i], Run(INIT, steps).effects[j]);
            && !IsPaid(second, first.sagaId, first.step)
            && (second.Asked? && second.sagaId == first.sagaId && second.step == first.step ==>
                  second.operationId != "" && second.step == StepCapture)
  {
    SerialRun(steps);
    OnceAt(Run(INIT, steps).effects, i, j);
  }

  lemma {:induction false} OnceAt(effects: seq<Effect>, i: nat, j: nat)
    requires OnceEach(effects) && i < j < |effects|
    requires effects[i].Paid?
    ensures !IsPaid(effects[j], effects[i].sagaId, effects[i].step)
    ensures effects[j].Asked? && effects[j].sagaId == effects[i].sagaId && effects[j].step == effects[i].step ==>
              effects[j].operationId != "" && effects[j].step == StepCapture
  {
    var init := effects[..|effects| - 1];
    if j < |init| {
      OnceAt(init, i, j);
    } else {
      InPaid(init, i);
    }
  }

  lemma {:induction false} InPaid(effects: seq<Effect>, i: nat)
    requires i < |effects| && effects[i].Paid?
    ensures PaidIn(effects, effects[i].sagaId, effects[i].step)
  {
    if i < |effects| - 1 {
      InPaid(effects[..|effects| - 1], i);
    }
  }
}
