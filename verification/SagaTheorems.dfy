/**
 What holds in every run of the saga runtime, whatever is duplicated, interleaved or
 interrupted.
 */
module SagaTheorems {
  import opened Outcomes
  import opened Decimal
  import opened Payments
  import opened Sagas
  import opened SagaRuns
  import PaymentStore

  // ----- All interleavings -----

  /**
   Whatever is duplicated, stale, interrupted or done to the payment from outside: a
   saga that completed its authorisation has a fully authorised payment, a completed
   saga a payment captured at least as far as requested, a compensated saga a cancelled
   payment, and a saga that failed at once a failed payment.
   */
  lemma {:induction false} SagaIsSafe(steps: seq<Step>, id: string)
    requires id in Run(INIT, steps).sagas
    ensures var s := Run(INIT, steps);
            var i := s.sagas[id];
            && ((i.status == StatusRunning && i.completed == []) || i.paymentId in s.payments)
            && (StepAuthorize in i.completed ==>
                 s.payments[i.paymentId].authorized == s.payments[i.paymentId].amount.amount)
            && (i.status == StatusCompleted ==>
                  i.payload.Request? && 0 < i.payload.input.amount <= s.payments[i.paymentId].captured)
            && (i.status == StatusFailed && i.completed != [] ==> s.payments[i.paymentId].status == Cancelled)
            && (i.status == StatusFailed && i.completed == [] ==> s.payments[i.paymentId].status == Failed)
  {
    RunKeepsInv(steps);
    assert Shape(Run(INIT, steps).payments, Run(INIT, steps).sagas[id]);
  }

  /** The refund step is never current nor scheduled nor announced, and the version never exceeds 4. */
  lemma NoRefundAndFewVersions(steps: seq<Step>, id: string)
    requires id in Run(INIT, steps).sagas
    ensures var s := Run(INIT, steps);
            && s.sagas[id].currentStep != StepRefund && StepRefund !in s.sagas[id].compensation
            && 1 <= s.sagas[id].version <= 4
            && forall m :: m in s.messages ==> m.step != StepRefund
  {
    RunKeepsInv(steps);
    assert Shape(Run(INIT, steps).payments, Run(INIT, steps).sagas[id]);
    assert forall m :: m in Run(INIT, steps).messages ==> MessageOk(Run(INIT, steps).sagas, m);
  }

  /** Two regular messages with one id are the same up to their schedule: no two steps of any two sagas share an id. */
  lemma MessageIdsIdentify(steps: seq<Step>, m: Message, n: Message)
    requires m in Run(INIT, steps).messages && n in Run(INIT, steps).messages
    requires m.operationId == n.operationId == "" && m.id == n.id
    ensures m == n.(scheduledAt := m.scheduledAt)
  {
    RunKeepsInv(steps);
    var s := Run(INIT, steps);
    assert MessageOk(s.sagas, m) && MessageOk(s.sagas, n);
    TaggedIdInjective(m.sagaId, StepName(m.step), StepVersion(m.step), n.sagaId, StepName(n.step), StepVersion(n.step));
    StepNameInjective(m.step, n.step);
  }

  /** What any step does to one row: nothing, or the legal advance of exactly the stored instance. */
  ghost predicate RowStep(before: Instance, after: Instance) {
    || after == before
    || (Open(before) && exists succeeded, at :: Advanced(before, before.currentStep, succeeded, at) == Ok(after))
  }

  predicate SagasKept(before: SagaTable, after: SagaTable) {
    forall id ::
        id in before ==>
          id in after && after[id].paymentId == before[id].paymentId && after[id].payload == before[id].payload
  }

  lemma SavedRow(s: Sys, d: nat, at: int, id: string)
    requires Inv(s) && id in s.sagas
    ensures id in Next(s, SaveAdvanced(d, at)).sagas
    ensures RowStep(s.sagas[id], Next(s, SaveAdvanced(d, at)).sagas[id])
  {
    var t := Next(s, SaveAdvanced(d, at));
    if t.sagas != s.sagas {
      var delivery := s.deliveries[d];
      var succeeded := delivery.phase.succeeded;
      assert DeliveryOk(s.payments, s.sagas, delivery);
      AdvanceIsShaped(s, delivery, succeeded, at);
      if id == delivery.saga.id {
        assert s.sagas[id] == delivery.saga;
        assert Advanced(s.sagas[id], s.sagas[id].currentStep, succeeded, at) == Ok(t.sagas[id]);
      }
    }
  }

  /** A stored saga changes only by its own legal transitions; a finished one never changes. */
  lemma RowsChangeLegally(s: Sys, step: Step, id: string)
    requires Inv(s) && id in s.sagas
    ensures id in Next(s, step).sagas && RowStep(s.sagas[id], Next(s, step).sagas[id])
  {
    match step
    case Start(other, paymentId, payload, seed, at, published) =>
      StartKeepsInv(s, other, paymentId, payload, seed, at, published);
    case SaveAdvanced(d, at) => SavedRow(s, d, at, id);
    case _ => OtherStepsKeepSagas(s, step);
  }

  lemma {:induction false} FinishedSagaStays(s: Sys, steps: seq<Step>, id: string)
    requires Inv(s) && id in s.sagas && !Open(s.sagas[id])
    ensures Inv(Run(s, steps)) && id in Run(s, steps).sagas && Run(s, steps).sagas[id] == s.sagas[id]
  {
    if steps != [] {
      var init := steps[..|steps| - 1];
      FinishedSagaStays(s, init, id);
      StepKeepsInv(Run(s, init), steps[|steps| - 1]);
      RowsChangeLegally(Run(s, init), steps[|steps| - 1], id);
    }
  }

  lemma RowStepKeeps(before: Instance, after: Instance)
    requires RowStep(before, after)
    ensures after.paymentId == before.paymentId && after.payload == before.payload
  {
  }

  lemma SagasStayKept(s: Sys, step: Step)
    requires Inv(s)
    ensures SagasKept(s.sagas, Next(s, step).sagas)
  {
    var after := Next(s, step).sagas;
    forall id | id in s.sagas
      ensures id in after && after[id].paymentId == s.sagas[id].paymentId && after[id].payload == s.sagas[id].payload
    {
      RowsChangeLegally(s, step, id);
      RowStepKeeps(s.sagas[id], after[id]);
    }
  }

  /** Every step moves payments forward and keeps the payment and payload of every saga. */
  lemma StepGrows(s: Sys, step: Step)
    requires Inv(s)
    ensures Grows(s.payments, Next(s, step).payments) && SagasKept(s.sagas, Next(s, step).sagas)
  {
    SagasStayKept(s, step);
    PaymentsGrow(s, step);
  }

  lemma PayGrows(s: Sys, d: nat, delivery: Delivery, approved: bool)
    requires Inv(s) && DeliveryOk(s.payments, s.sagas, delivery) && delivery.phase == Replied(approved)
    ensures Grows(s.payments, AfterPay(s, d, delivery, approved).payments)
  {
    if Decode(delivery.message.payload).Some? && Applied(s.payments, delivery.message, approved).Some? {
      PaidIsDone(s, delivery, approved);
    }
  }

  lemma PaymentsGrow(s: Sys, step: Step)
    requires Inv(s)
    ensures Grows(s.payments, Next(s, step).payments)
  {
    match step
    case Create(id, amount, currency) => CreationGrows(s, id, amount, currency);
    case Outside(id, op) =>
      if Command(s.payments, id, op).Some? {
        CommandGrows(s.payments, id, op);
      }
    case Pay(d) =>
      if d in s.deliveries && s.deliveries[d].phase.Replied? {
        PayGrows(s, d, s.deliveries[d], s.deliveries[d].phase.approved);
      }
    case _ => OtherStepsKeepPayments(s, step);
  }

  lemma OtherStepsKeepPayments(s: Sys, step: Step)
    requires !step.Create? && !step.Outside? && !step.Pay?
    ensures Next(s, step).payments == s.payments
  {
  }

  lemma OtherStepsKeepSagas(s: Sys, step: Step)
    requires !step.Start? && !step.SaveAdvanced?
    ensures Next(s, step).sagas == s.sagas
  {
  }

  // ----- A step that was carried out is not asked for again -----

  /** Redelivery after a crash between payment commit and saga save. */
  function Redelivery(s: Sys, d: nat, m: Message, answer: Answer, at: int): Sys {
    Next(Next(Next(Next(s, Deliver(d, m)), Ask(d, answer)), SaveAdvanced(d, at)), Publish(d))
  }

  /**
   When the payment already shows the current step, redelivering its message advances
   the saga and publishes the next step, without a request to the provider and without
   touching the payment.
   */
  lemma {:induction false} RedeliveryAdvances(s: Sys, d: nat, m: Message, answer: Answer, at: int)
    requires Inv(s) && d !in s.deliveries && m in s.messages && ValidMessage(m) && m.operationId == "" && at != UNSET
    requires m.sagaId in s.sagas && Open(s.sagas[m.sagaId]) && s.sagas[m.sagaId].currentStep == m.step
    requires Done(s.payments, s.sagas[m.sagaId], m.step)
    ensures var i := s.sagas[m.sagaId];
            var t := Redelivery(s, d, m, answer, at);
            && Advanced(i, m.step, true, at).Ok? && t.sagas == s.sagas[i.id := Advanced(i, m.step, true, at).value]
            && t.payments == s.payments && t.effects == s.effects && t.deliveries == s.deliveries
            && (Open(t.sagas[i.id]) ==> CurrentMessage(t.sagas[i.id], at) in t.messages)
  {
    var i := s.sagas[m.sagaId];
    var concluded := Delivery(m, i, Concluded(true));
    assert MessageOk(s.sagas, m) && i.id == m.sagaId;
    DeliveredThenSeen(s, d, m, answer);
    var s2 := s.(deliveries := s.deliveries[d := concluded]);
    FinishDelivery(s, s2, d, m, i, at);
  }

  /** The last two steps of a delivery whose step is done. */
  lemma FinishDelivery(s: Sys, concluded: Sys, d: nat, m: Message, i: Instance, at: int)
    requires Inv(s) && d !in s.deliveries && ValidMessage(m) && m.sagaId == i.id && m.paymentId == i.paymentId &&
             at != UNSET
    requires i.id in s.sagas && s.sagas[i.id] == i && Open(i) && i.currentStep == m.step
    requires concluded == s.(deliveries := s.deliveries[d := Delivery(m, i, Concluded(true))])
    ensures var advanced := Advanced(i, m.step, true, at);
            var t := Next(Next(concluded, SaveAdvanced(d, at)), Publish(d));
            && advanced.Ok?
            && t == s.(sagas := s.sagas[i.id := advanced.value],
                       messages := if Open(advanced.value) then s.messages + {CurrentMessage(advanced.value, at)}
                           else s.messages)
  {
    SeenIsSaved(concluded, d, concluded.deliveries[d], at);
    var j := Advanced(i, m.step, true, at).value;
    var saved :=
        SetDelivery(concluded.(sagas := s.sagas[i.id := j]), d, if Open(j) then Some(Delivery(m, j, Stored(at)))
          else None);
    assert s.deliveries[d := Delivery(m, i, Concluded(true))] - {d} == s.deliveries;
    assert Next(concluded, SaveAdvanced(d, at)) == saved;
    LastPublish(s, d, m, j, at, saved);
  }

  lemma DeliveredThenSeen(s: Sys, d: nat, m: Message, answer: Answer)
    requires Inv(s) && d !in s.deliveries && m in s.messages && ValidMessage(m) && m.operationId == ""
    requires m.sagaId in s.sagas && Open(s.sagas[m.sagaId]) && s.sagas[m.sagaId].currentStep == m.step
    requires Done(s.payments, s.sagas[m.sagaId], m.step)
    ensures Next(Next(s, Deliver(d, m)), Ask(d, answer))
         == s.(deliveries := s.deliveries[d := Delivery(m, s.sagas[m.sagaId], Concluded(true))])
  {
    var loaded := Delivery(m, s.sagas[m.sagaId], Loaded);
    var s1 := s.(deliveries := s.deliveries[d := loaded]);
    assert MessageOk(s.sagas, m);
    assert Next(s, Deliver(d, m)) == s1;
    DoneIsSeen(s1, d, loaded, answer);
    assert s1.deliveries[d := loaded.(phase := Concluded(true))] ==
        s.deliveries[d := loaded.(phase := Concluded(true))];
  }

  lemma LastPublish(s: Sys, d: nat, m: Message, j: Instance, at: int, saved: Sys)
    requires d !in s.deliveries && ValidMessage(m) && m.sagaId == j.id && m.paymentId == j.paymentId && at != UNSET
    requires saved.messages == s.messages
    requires saved.deliveries == if Open(j) then s.deliveries[d := Delivery(m, j, Stored(at))] else s.deliveries
    ensures Next(saved, Publish(d)) ==
            saved.(deliveries := s.deliveries, messages := if Open(j) then s.messages + {CurrentMessage(j, at)}
              else s.messages)
  {
    assert s.deliveries[d := Delivery(m, j, Stored(at))] - {d} == s.deliveries;
    assert ValidMessage(CurrentMessage(j, at));
  }

  lemma DoneIsSeen(s: Sys, d: nat, delivery: Delivery, answer: Answer)
    requires PaymentsOk(s.payments) && MessageOk(s.sagas, delivery.message) && delivery.message.operationId == ""
    requires Done(s.payments, s.sagas[delivery.message.sagaId], delivery.message.step)
    ensures AfterAsk(s, d, delivery, answer) == SetDelivery(s, d, Some(delivery.(phase := Concluded(true))))
  {
    FoundIsTheRow(s.payments, delivery.message.paymentId);
  }

  lemma SeenIsSaved(s: Sys, d: nat, delivery: Delivery, at: int)
    requires SagasOk(s.payments, s.sagas) && delivery.saga.id in s.sagas && s.sagas[delivery.saga.id] == delivery.saga
    requires Open(delivery.saga) && delivery.saga.currentStep == delivery.message.step
    ensures var advanced := Advanced(delivery.saga, delivery.message.step, true, at);
            && advanced.Ok? && advanced.value.id == delivery.saga.id &&
               advanced.value.paymentId == delivery.saga.paymentId
            && AfterSave(s, d, delivery, true, at)
            == SetDelivery(s.(sagas := s.sagas[delivery.saga.id := advanced.value]), d,
                           if Open(advanced.value) then
                             Some(Delivery(delivery.message, advanced.value, Stored(at)))
                           else None)
  {
    assert Shape(s.payments, s.sagas[delivery.saga.id]);
  }
}
