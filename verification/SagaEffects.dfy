/**
 What the payment commands of sagas leave behind in every run, overlapping or not: each
 step that was paid for shows in its payment, and the captures of a saga together never
 exceed what its payment captured.
 */
module SagaEffects {
  import opened Outcomes
  import opened Decimal
  import opened Payments
  import opened Sagas
  import opened SagaRuns
  import opened SagaTheorems
  import PaymentStore

  predicate IsPaid(e: Effect, sagaId: string, step: SagaStep) {
    match e
    case Asked(_, _, _, _, _) => false
    case Paid(x, t, _, _) => x == sagaId && t == step
  }

  predicate PaidIn(effects: seq<Effect>, sagaId: string, step: SagaStep) {
    effects != [] && (IsPaid(effects[|effects| - 1], sagaId, step) || PaidIn(effects[..|effects| - 1], sagaId, step))
  }

  lemma PaidInSnoc(effects: seq<Effect>, e: Effect, sagaId: string, step: SagaStep)
    ensures PaidIn(effects + [e], sagaId, step) <==> IsPaid(e, sagaId, step) || PaidIn(effects, sagaId, step)
  {
    assert (effects + [e])[..|effects|] == effects;
  }

  /** How often a saga's capture was carried out. */
  function CaptureCount(effects: seq<Effect>, sagaId: string): nat {
    if effects == [] then 0
    else
      var last := effects[|effects| - 1];
      CaptureCount(effects[..|effects| - 1], sagaId) + (if IsPaid(last, sagaId, StepCapture) then 1 else 0)
  }

  lemma CaptureCountSnoc(effects: seq<Effect>, e: Effect, sagaId: string)
    ensures CaptureCount(effects + [e], sagaId) ==
            CaptureCount(effects, sagaId) + (if IsPaid(e, sagaId, StepCapture) then 1 else 0)
  {
    assert (effects + [e])[..|effects|] == effects;
  }

  // ----- The effect of one step -----

  /** A capture command of a saga takes the amount and currency that its payload asks for. */
  predicate CapturesInput(before: PaymentStore.Table, after: PaymentStore.Table, i: Instance) {
    match Decode(i.payload)
    case None => false
    case Some(input) =>
      && i.paymentId in before && i.paymentId in after && 0 < input.amount
      && input.currency == after[i.paymentId].amount.currency
      && after[i.paymentId].captured == before[i.paymentId].captured + input.amount
  }

  /** What a step that adds an effect does to the payments. */
  predicate EffectFits(before: PaymentStore.Table, after: PaymentStore.Table, sagas: SagaTable, e: Effect) {
    match e
    case Asked(_, _, _, _, _) => true
    case Paid(x, step, operationId, _) =>
      && x in sagas && Done(after, sagas[x], step)
      && (step == StepCapture ==> operationId == "" && CapturesInput(before, after, sagas[x]))
  }

  predicate EffectsGrow(s: Sys, t: Sys) {
    || t.effects == s.effects
    || (|t.effects| == |s.effects| + 1
        && t.effects == s.effects + [t.effects[|s.effects|]]
        && EffectFits(s.payments, t.payments, t.sagas, t.effects[|s.effects|]))
  }

  lemma PaidFits(s: Sys, d: nat, delivery: Delivery, after: PaymentStore.Table)
    requires Inv(s) && DeliveryOk(s.payments, s.sagas, delivery) && delivery.phase == Replied(true)
    requires Decode(delivery.message.payload).Some? && Applied(s.payments, delivery.message, true) == Some(after)
    ensures EffectFits(s.payments, after, s.sagas,
            Paid(delivery.message.sagaId, delivery.message.step, delivery.message.operationId, d))
  {
    var m := delivery.message;
    PaidIsDone(s, delivery, true);
    CommandGrows(s.payments, m.paymentId, OpFor(m, true).value.value);
  }

  lemma PayEffects(s: Sys, d: nat, delivery: Delivery, approved: bool)
    requires Inv(s) && DeliveryOk(s.payments, s.sagas, delivery) && delivery.phase == Replied(approved)
    ensures EffectsGrow(s, AfterPay(s, d, delivery, approved))
  {
    var m := delivery.message;
    if approved && Decode(m.payload).Some? && Applied(s.payments, m, true).Some? {
      PaidFits(s, d, delivery, Applied(s.payments, m, true).value);
    }
  }

  lemma QuietEffects(s: Sys, step: Step)
    requires !step.Ask? && !step.Pay?
    ensures Next(s, step).effects == s.effects
  {
  }

  lemma StepEffects(s: Sys, step: Step)
    requires Inv(s)
    ensures EffectsGrow(s, Next(s, step))
  {
    match step
    case Ask(d, answer) =>
    case Pay(d) =>
      if d in s.deliveries && s.deliveries[d].phase.Replied? {
        PayEffects(s, d, s.deliveries[d], s.deliveries[d].phase.approved);
      }
    case _ => QuietEffects(s, step);
  }

  // ----- Every run -----

  /** Every step that was paid for is a step of a saga and shows in its payment. */
  ghost predicate PaidDone(payments: PaymentStore.Table, sagas: SagaTable, effects: seq<Effect>) {
    forall x, t :: PaidIn(effects, x, t) ==> x in sagas && Done(payments, sagas[x], t)
  }

  /** The captures of one saga, each over the amount of its payload, within what its payment captured. */
  predicate CapturesWithin(payments: PaymentStore.Table, sagas: SagaTable, x: string, count: nat) {
    count == 0 || (
      x in sagas
      && match Decode(sagas[x].payload)
         case None => false
         case Some(input) =>
           && sagas[x].paymentId in payments && 0 < input.amount
           && input.currency == payments[sagas[x].paymentId].amount.currency
           && count * input.amount <= payments[sagas[x].paymentId].captured)
  }

  ghost predicate AllCapturesWithin(s: Sys) {
    forall x :: CapturesWithin(s.payments, s.sagas, x, CaptureCount(s.effects, x))
  }

  lemma PaidDoneStep(s: Sys, t: Sys)
    requires PaidDone(s.payments, s.sagas, s.effects) && EffectsGrow(s, t)
    requires Grows(s.payments, t.payments) && SagasKept(s.sagas, t.sagas)
    ensures PaidDone(t.payments, t.sagas, t.effects)
  {
    forall x, step | PaidIn(t.effects, x, step)
      ensures x in t.sagas && Done(t.payments, t.sagas[x], step)
    {
      if t.effects != s.effects {
        PaidInSnoc(s.effects, t.effects[|s.effects|], x, step);
      }
      if PaidIn(s.effects, x, step) {
        DoneLasts(s.payments, t.payments, s.sagas[x], step);
      }
    }
  }

  lemma CapturesLast(s: Sys, t: Sys, x: string, count: nat)
    requires CapturesWithin(s.payments, s.sagas, x, count)
    requires Grows(s.payments, t.payments) && SagasKept(s.sagas, t.sagas)
    ensures CapturesWithin(t.payments, t.sagas, x, count)
  {
    if count > 0 {
      assert Later(s.payments[s.sagas[x].paymentId], t.payments[s.sagas[x].paymentId]);
    }
  }

  lemma CaptureCounted(s: Sys, t: Sys, x: string, count: nat)
    requires CapturesWithin(s.payments, s.sagas, x, count) && PaymentsOk(s.payments)
    requires SagasKept(s.sagas, t.sagas) && x in t.sagas && CapturesInput(s.payments, t.payments, t.sagas[x])
    ensures CapturesWithin(t.payments, t.sagas, x, count + 1)
  {
    var i, input := t.sagas[x], Decode(t.sagas[x].payload).value;
    assert PaymentOk(i.paymentId, s.payments[i.paymentId]);
    assert count * input.amount <= s.payments[i.paymentId].captured;
    assert (count + 1) * input.amount == count * input.amount + input.amount;
  }

  lemma CapturesStep(s: Sys, t: Sys)
    requires AllCapturesWithin(s) && PaymentsOk(s.payments) && EffectsGrow(s, t)
    requires Grows(s.payments, t.payments) && SagasKept(s.sagas, t.sagas)
    ensures AllCapturesWithin(t)
  {
    forall x
      ensures CapturesWithin(t.payments, t.sagas, x, CaptureCount(t.effects, x))
    {
      assert CapturesWithin(s.payments, s.sagas, x, CaptureCount(s.effects, x));
      if t.effects == s.effects || !IsPaid(t.effects[|s.effects|], x, StepCapture) {
        CapturesLast(s, t, x, CaptureCount(s.effects, x));
      } else {
        CaptureCounted(s, t, x, CaptureCount(s.effects, x));
      }
      if t.effects != s.effects {
        CaptureCountSnoc(s.effects, t.effects[|s.effects|], x);
      }
    }
  }

  ghost predicate Shown(s: Sys) {
    Inv(s) && PaidDone(s.payments, s.sagas, s.effects) && AllCapturesWithin(s)
  }

  lemma StepShows(s: Sys, t: Sys, step: Step)
    requires Shown(s) && t == Next(s, step)
    ensures Shown(t)
  {
    StepKeepsInv(s, step);
    StepEffects(s, step);
    StepGrows(s, step);
    PaidDoneStep(s, t);
    CapturesStep(s, t);
  }

  lemma {:induction false} EffectsShow(steps: seq<Step>)
    ensures Shown(Run(INIT, steps))
  {
    if steps != [] {
      EffectsShow(steps[..|steps| - 1]);
      StepShows(Run(INIT, steps[..|steps| - 1]), Run(INIT, steps), steps[|steps| - 1]);
    }
  }

  /**
   In every run, also with overlapping deliveries and with other clients at work, the
   captures that a saga carried out, each over the amount of its payload, together stay
   within what its payment captured, and that within its total.
   */
  lemma CapturesAreCovered(steps: seq<Step>, x: string)
    requires CaptureCount(Run(INIT, steps).effects, x) > 0
    ensures var s := Run(INIT, steps);
            && x in s.sagas && s.sagas[x].payload.Request? && s.sagas[x].paymentId in s.payments
            && var (input, p) := (s.sagas[x].payload.input, s.payments[s.sagas[x].paymentId]);
               && 0 < input.amount && input.currency == p.amount.currency
               && CaptureCount(s.effects, x) * input.amount <= p.captured <= p.amount.amount
  {
    EffectsShow(steps);
    var s := Run(INIT, steps);
    assert CapturesWithin(s.payments, s.sagas, x, CaptureCount(s.effects, x));
    assert PaymentOk(s.sagas[x].paymentId, s.payments[s.sagas[x].paymentId]);
  }

  ghost predicate CapturesSynchronous(effects: seq<Effect>) {
    forall k :: 0 <= k < |effects| && effects[k].Paid? && effects[k].step == StepCapture ==>
      effects[k].operationId == ""
  }

  lemma StepStaysSynchronous(s: Sys, t: Sys)
    requires EffectsGrow(s, t) && CapturesSynchronous(s.effects)
    ensures CapturesSynchronous(t.effects)
  {
  }

  lemma {:induction false} RunsStaySynchronous(steps: seq<Step>)
    ensures CapturesSynchronous(Run(INIT, steps).effects)
  {
    if steps != [] {
      var init, last := steps[..|steps| - 1], steps[|steps| - 1];
      RunsStaySynchronous(init);
      RunKeepsInv(init);
      StepEffects(Run(INIT, init), last);
      StepStaysSynchronous(Run(INIT, init), Next(Run(INIT, init), last));
    }
  }

  /**
   A capture that the provider answers asynchronously is never carried out: the message
   of its operation carries no amount, and in no run does such a message pay a capture.
   */
  lemma NoAsynchronousCapture(steps: seq<Step>, k: nat)
    requires k < |Run(INIT, steps).effects|
    ensures var e := Run(INIT, steps).effects[k];
            e.Paid? && e.step == StepCapture ==> e.operationId == ""
  {
    RunsStaySynchronous(steps);
  }

  /**
   A process that dies after the payment command and before the saga save loses nothing,
   whatever else was delivered before or is still under way: the next delivery of the
   message advances the saga and publishes its next step, asks the provider for nothing
   and leaves the payment alone.
   */
  lemma {:induction false} CrashAfterPaymentIsRecovered(steps: seq<Step>, d: nat, m: Message, answer: Answer, at: int)
    requires d !in Run(INIT, steps).deliveries
    requires PaidIn(Run(INIT, steps).effects, m.sagaId, m.step)
    requires m in Run(INIT, steps).messages && ValidMessage(m) && m.operationId == "" && at != UNSET
    requires m.sagaId in Run(INIT, steps).sagas
    requires Open(Run(INIT, steps).sagas[m.sagaId]) && Run(INIT, steps).sagas[m.sagaId].currentStep == m.step
    ensures var s := Run(INIT, steps);
            var i := s.sagas[m.sagaId];
            var t := Redelivery(s, d, m, answer, at);
            && Advanced(i, m.step, true, at).Ok? && t.sagas == s.sagas[m.sagaId := Advanced(i, m.step, true, at).value]
            && t.payments == s.payments && t.effects == s.effects
            && (Open(t.sagas[m.sagaId]) ==> CurrentMessage(t.sagas[m.sagaId], at) in t.messages)
  {
    var s := Run(INIT, steps);
    EffectsShow(steps);
    assert Done(s.payments, s.sagas[m.sagaId], m.step);
    assert s.sagas[m.sagaId].id == m.sagaId;
    RedeliveryAdvances(s, d, m, answer, at);
  }
}
