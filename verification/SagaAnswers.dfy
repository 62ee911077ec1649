/**
 What the provider's answers do in the saga runtime: payments are only ever changed on an
 approval of that very delivery, and each answer and each conclusion is given field by field.
 */
module SagaAnswers {
  import opened Outcomes
  import opened Payments
  import opened Sagas
  import opened SagaRuns
  import PaymentStore

  // ----- Paid only when approved -----

  /** The latest effect of a delivery. */
  function LastOf(effects: seq<Effect>, d: nat): Option<Effect> {
    if effects == [] then None
    else if effects[|effects| - 1].delivery == d then Some(effects[|effects| - 1])
    else LastOf(effects[..|effects| - 1], d)
  }

  lemma LastOfSnoc(effects: seq<Effect>, e: Effect, d: nat)
    ensures LastOf(effects + [e], d) == if e.delivery == d then Some(e) else LastOf(effects, d)
  {
    assert (effects + [e])[..|effects|] == effects;
  }

  function FinalAnswer(approved: bool): Answer {
    if approved then Approved else Declined
  }

  /** A delivery that awaits its payment command was asked last, and answered so. */
  predicate ReplyAnswered(effects: seq<Effect>, d: nat, delivery: Delivery) {
    match delivery
    case Delivery(m, _, phase) =>
      match phase
      case Replied(approved) =>
        LastOf(effects, d) == Some(Asked(m.sagaId, m.step, m.operationId, d, FinalAnswer(approved)))
      case _ => true
  }

  ghost predicate RepliesAnswered(effects: seq<Effect>, deliveries: map<nat, Delivery>) {
    forall d :: d in deliveries ==> ReplyAnswered(effects, d, deliveries[d])
  }

  /** Every payment effect follows an approval, with no other effect of that delivery in between. */
  predicate PaidApproved(effects: seq<Effect>) {
    effects == [] || (
      var init, last := effects[..|effects| - 1], effects[|effects| - 1];
      PaidApproved(init) && EffectApproved(init, last))
  }

  predicate EffectApproved(before: seq<Effect>, e: Effect) {
    match e
    case Asked(_, _, _, _, _) => true
    case Paid(x, step, operationId, d) => LastOf(before, d) == Some(Asked(x, step, operationId, d, Approved))
  }

  lemma ApprovedSnoc(effects: seq<Effect>, e: Effect)
    requires PaidApproved(effects) && EffectApproved(effects, e)
    ensures PaidApproved(effects + [e])
  {
    assert (effects + [e])[..|effects|] == effects;
  }

  /** One delivery moves on, with its own effect or none. */
  lemma OwnEffect(before: seq<Effect>, after: seq<Effect>, e: Effect, deliveries: map<nat, Delivery>,
                  later: map<nat, Delivery>, d: nat)
    requires RepliesAnswered(before, deliveries) && PaidApproved(before) && EffectApproved(before, e) && e.delivery == d
    requires after == before + [e]
    requires forall x :: x in later && x != d ==> x in deliveries && later[x] == deliveries[x]
    requires d in later ==> ReplyAnswered(after, d, later[d])
    ensures RepliesAnswered(after, later) && PaidApproved(after)
  {
    ApprovedSnoc(before, e);
    forall x | x in later
      ensures ReplyAnswered(after, x, later[x])
    {
      if x != d {
        assert ReplyAnswered(before, x, deliveries[x]);
        LastOfSnoc(before, e, x);
      }
    }
  }

  lemma AskAnswers(s: Sys, d: nat, delivery: Delivery, answer: Answer)
    requires RepliesAnswered(s.effects, s.deliveries) && PaidApproved(s.effects)
    ensures var t := AfterAsk(s, d, delivery, answer);
            RepliesAnswered(t.effects, t.deliveries) && PaidApproved(t.effects)
  {
    var t, m := AfterAsk(s, d, delivery, answer), delivery.message;
    var e := Asked(m.sagaId, m.step, m.operationId, d, answer);
    AskedDelivery(s, d, delivery, answer);
    if Asks(s.payments, m) {
      LastOfSnoc(s.effects, e, d);
      OwnEffect(s.effects, t.effects, e, s.deliveries, t.deliveries, d);
    } else {
      QuietDeliveries(s.effects, s.deliveries, t.deliveries);
    }
  }

  /** What an answer makes of a delivery. */
  lemma AskedDelivery(s: Sys, d: nat, delivery: Delivery, answer: Answer)
    ensures var (t, m) := (AfterAsk(s, d, delivery, answer), delivery.message);
            && t.effects == (if Asks(s.payments, m) then s.effects + [Asked(m.sagaId, m.step, m.operationId, d, answer)]
                             else s.effects)
            && (forall x :: x in t.deliveries && x != d ==> x in s.deliveries && t.deliveries[x] == s.deliveries[x])
            && (d in t.deliveries ==> t.deliveries[d].message == m)
            && (d in t.deliveries && t.deliveries[d].phase.Replied? ==>
                  Asks(s.payments, m) && answer == FinalAnswer(t.deliveries[d].phase.approved))
  {
  }

  lemma QuietDeliveries(effects: seq<Effect>, before: map<nat, Delivery>, after: map<nat, Delivery>)
    requires RepliesAnswered(effects, before)
    requires forall d :: d in after && after[d].phase.Replied? ==> d in before && after[d] == before[d]
    ensures RepliesAnswered(effects, after)
  {
    forall d | d in after
      ensures ReplyAnswered(effects, d, after[d])
    {
      assert after[d].phase.Replied? ==> ReplyAnswered(effects, d, before[d]);
    }
  }

  lemma PayAnswers(s: Sys, d: nat, delivery: Delivery, approved: bool)
    requires RepliesAnswered(s.effects, s.deliveries) && PaidApproved(s.effects)
    requires d in s.deliveries && s.deliveries[d] == delivery && delivery.phase == Replied(approved)
    ensures var t := AfterPay(s, d, delivery, approved);
            RepliesAnswered(t.effects, t.deliveries) && PaidApproved(t.effects)
  {
    var t, m := AfterPay(s, d, delivery, approved), delivery.message;
    assert ReplyAnswered(s.effects, d, delivery);
    if t.effects != s.effects {
      OwnEffect(s.effects, t.effects, Paid(m.sagaId, m.step, m.operationId, d), s.deliveries, t.deliveries, d);
    } else {
      QuietDeliveries(s.effects, s.deliveries, t.deliveries);
    }
  }

  lemma OtherSteps(s: Sys, step: Step)
    requires !step.Ask? && !step.Pay?
    ensures var t := Next(s, step);
            && t.effects == s.effects
            && forall d :: d in t.deliveries && t.deliveries[d].phase.Replied? ==>
                 d in s.deliveries && t.deliveries[d] == s.deliveries[d]
  {
  }

  lemma StepAnswers(s: Sys, step: Step)
    requires RepliesAnswered(s.effects, s.deliveries) && PaidApproved(s.effects)
    ensures var t := Next(s, step); RepliesAnswered(t.effects, t.deliveries) && PaidApproved(t.effects)
  {
    match step
    case Ask(d, answer) =>
      if d in s.deliveries && s.deliveries[d].phase == Loaded {
        AskAnswers(s, d, s.deliveries[d], answer);
      }
    case Pay(d) =>
      if d in s.deliveries && s.deliveries[d].phase.Replied? {
        PayAnswers(s, d, s.deliveries[d], s.deliveries[d].phase.approved);
      }
    case _ =>
      OtherSteps(s, step);
      QuietDeliveries(s.effects, s.deliveries, Next(s, step).deliveries);
  }

  lemma {:induction false} RunAnswers(steps: seq<Step>)
    ensures var s := Run(INIT, steps); RepliesAnswered(s.effects, s.deliveries) && PaidApproved(s.effects)
  {
    if steps != [] {
      RunAnswers(steps[..|steps| - 1]);
      StepAnswers(Run(INIT, steps[..|steps| - 1]), steps[|steps| - 1]);
    }
  }

  lemma {:induction false} LastOfAt(effects: seq<Effect>, d: nat) returns (j: nat)
    requires LastOf(effects, d).Some?
    ensures j < |effects| && effects[j] == LastOf(effects, d).value
    ensures forall i :: j < i < |effects| ==> effects[i].delivery != d
  {
    if effects[|effects| - 1].delivery == d {
      j := |effects| - 1;
    } else {
      j := LastOfAt(effects[..|effects| - 1], d);
    }
  }

  lemma {:induction false} ApprovedAt(effects: seq<Effect>, k: nat)
    requires PaidApproved(effects) && k < |effects|
    ensures EffectApproved(effects[..k], effects[k])
  {
    if k < |effects| - 1 {
      ApprovedAt(effects[..|effects| - 1], k);
      assert effects[..|effects| - 1][..k] == effects[..k];
    }
  }

  /** The approval of the effect at `k`, with no other effect of its delivery in between. */
  ghost predicate ApprovedBefore(effects: seq<Effect>, k: nat)
    requires k < |effects|
  {
    var e := effects[k];
    exists j :: 0 <= j < k && effects[j] == Asked(e.sagaId, e.step, e.operationId, e.delivery, Approved) &&
                forall i :: j < i < k ==> effects[i].delivery != e.delivery
  }

  lemma PaidApprovedAt(effects: seq<Effect>, k: nat)
    requires PaidApproved(effects) && k < |effects| && effects[k].Paid?
    ensures ApprovedBefore(effects, k)
  {
    ApprovedAt(effects, k);
    var j := LastOfAt(effects[..k], effects[k].delivery);
    assert forall i :: 0 <= i < k ==> effects[..k][i] == effects[i];
  }

  /**
   In every run each step that is carried out on a payment was approved by the provider
   before, for the same delivery, saga, step and operation, and that delivery did nothing
   in between: no approval serves twice, and no error, no refusal and no pending answer
   ever pays.
   */
  lemma PaidWasApproved(steps: seq<Step>, k: nat)
    requires k < |Run(INIT, steps).effects| && Run(INIT, steps).effects[k].Paid?
    ensures ApprovedBefore(Run(INIT, steps).effects, k)
  {
    RunAnswers(steps);
    PaidApprovedAt(Run(INIT, steps).effects, k);
  }

  // ----- Each answer -----

  /** The payment does not show the step of the message yet. */
  predicate StillDue(payments: PaymentStore.Table, m: Message) {
    m.paymentId in payments ==>
      match Decode(m.payload)
      case None => true
      case Some(input) =>
        var p := payments[m.paymentId];
        match m.step
        case StepAuthorize => p.authorized != p.amount.amount
        case StepCapture => input.amount <= 0 || p.captured < input.amount
        case StepRefund => input.amount <= 0 || p.refunded < input.amount
        case StepCancel => p.status != Cancelled
  }

  predicate Waits(s: Sys, d: nat) {
    d in s.deliveries && s.deliveries[d].phase == Loaded && StillDue(s.payments, s.deliveries[d].message)
  }

  /**
   The provider is asked exactly when the payment exists, the payload can be read, and an
   operation has its payload or a capture proper money.
   */
  lemma AskedIff(s: Sys, d: nat)
    requires Inv(s) && Waits(s, d)
    ensures var m := s.deliveries[d].message;
            Asks(s.payments, m) <==>
            m.paymentId in s.payments
            && match Decode(m.payload)
               case None => false
               case Some(input) =>
                 if m.operationId != "" then m.payload != Empty
                 else m.step == StepCapture ==> input.amount >= 0 && ValidCurrency(input.currency)
  {
    var m := s.deliveries[d].message;
    FoundIsTheRow(s.payments, m.paymentId);
    assert DeliveryOk(s.payments, s.sagas, s.deliveries[d]);
  }

  /** An error of the provider ends the delivery and changes nothing else. */
  lemma UnavailableChangesNothing(s: Sys, d: nat)
    requires PaymentsOk(s.payments) && Waits(s, d)
    ensures var t := Next(s, Ask(d, Unavailable));
            && t.payments == s.payments && t.sagas == s.sagas && t.messages == s.messages
            && t.deliveries == s.deliveries - {d}
  {
    FoundIsTheRow(s.payments, s.deliveries[d].message.paymentId);
  }

  /**
   A pending answer ends the delivery too. Payments and sagas stay; if the provider was
   asked and its operations are proper, each of them has a message of the saga and step,
   due when the operation is, and otherwise nothing is published.
   */
  lemma PendingOnlyPublishes(s: Sys, d: nat, operations: seq<AsyncOperation>)
    requires Inv(s) && Waits(s, d)
    ensures var (t, m) := (Next(s, Ask(d, Answer.Pending(operations))), s.deliveries[d].message);
            && t.payments == s.payments && t.sagas == s.sagas && t.deliveries == s.deliveries - {d}
            && t.messages == if Asks(s.payments, m) && ValidOperations(operations) then
                               s.messages + (set o | o in operations && m.sagaId != "" && m.paymentId != "" ::
                                 Message(o.id, m.sagaId, m.paymentId, m.step, o.id, Operation(o), o.scheduledAt))
                             else s.messages
  {
    var m := s.deliveries[d].message;
    FoundIsTheRow(s.payments, m.paymentId);
    if Asks(s.payments, m) && ValidOperations(operations) {
      forall o | o in operations
        ensures ValidMessage(AsyncMessage(m, o)) <==> m.sagaId != "" && m.paymentId != ""
      {
        var n :| 0 <= n < |operations| && operations[n] == o;
        assert ValidOperation(operations[n]);
      }
      assert AsyncMessages(m, operations) ==
             set o | o in operations && m.sagaId != "" && m.paymentId != "" ::
               Message(o.id, m.sagaId, m.paymentId, m.step, o.id, Operation(o), o.scheduledAt);
    }
  }

  /** A final answer changes nothing by itself: the payment command follows. */
  lemma FinalAnswerOnlyReplies(s: Sys, d: nat, approved: bool)
    requires PaymentsOk(s.payments) && Waits(s, d)
    ensures var (t, delivery) := (Next(s, Ask(d, FinalAnswer(approved))), s.deliveries[d]);
            && t.payments == s.payments && t.sagas == s.sagas && t.messages == s.messages
            && t.deliveries == if Asks(s.payments, delivery.message) then
                                 s.deliveries[d := delivery.(phase := Replied(approved))]
                               else s.deliveries - {d}
  {
    FoundIsTheRow(s.payments, s.deliveries[d].message.paymentId);
  }

  // ----- The payment command after a final answer -----

  /** What an approved step makes of its payment. */
  predicate CarriedOut(before: PaymentState, after: PaymentState, step: SagaStep, input: Input) {
    match step
    case StepAuthorize =>
      before.status == Status.Pending &&
        after == before.(status := Authorized, authorized := before.amount.amount, version := before.version + 1)
    case StepCancel =>
      before.status == Authorized && after == before.(status := Cancelled, version := before.version + 1)
    case StepCapture =>
      && 0 < input.amount <= before.authorized - before.captured && input.currency == before.amount.currency
      && after == before.(captured := before.captured + input.amount,
                          status := if before.captured + input.amount == before.authorized then Captured
                              else PartiallyCaptured,
                          version := before.version + 1)
    case StepRefund => false
  }

  /** Whether the payment allows the step of a message. */
  predicate Allows(payments: PaymentStore.Table, m: Message) {
    m.paymentId in payments
    && match Decode(m.payload)
       case None => false
       case Some(input) =>
         var p := payments[m.paymentId];
         match m.step
         case StepAuthorize => p.status == Status.Pending
         case StepCancel => p.status == Authorized
         case StepCapture =>
           && (p.status == Authorized || p.status == PartiallyCaptured) && p.version + 1 < VERSIONS
           && 0 < input.amount <= p.authorized - p.captured && input.currency == p.amount.currency
         case StepRefund => false
  }

  /**
   An approval carries the step out on the payment, exactly as asked, if the payment allows
   it; otherwise it is dropped without any change.
   */
  lemma ApprovalCarriesOut(s: Sys, d: nat)
    requires Inv(s) && d in s.deliveries && s.deliveries[d].phase == Replied(true)
    ensures var (t, m) := (Next(s, Pay(d)), s.deliveries[d].message);
            && t.sagas == s.sagas && t.messages == s.messages
            && (if !Allows(s.payments, m) then
                  t.effects == s.effects && t.payments == s.payments && t.deliveries == s.deliveries - {d}
                else
                  && t.effects == s.effects + [Paid(m.sagaId, m.step, m.operationId, d)]
                  && t.deliveries == s.deliveries[d := s.deliveries[d].(phase := Concluded(true))]
                  && m.paymentId in s.payments && m.paymentId in t.payments && Decode(m.payload).Some?
                  && t.payments == s.payments[m.paymentId := t.payments[m.paymentId]]
                  && CarriedOut(s.payments[m.paymentId], t.payments[m.paymentId], m.step, Decode(m.payload).value))
  {
    var m := s.deliveries[d].message;
    assert DeliveryOk(s.payments, s.sagas, s.deliveries[d]);
    AllowedIff(s.payments, m);
    if Allows(s.payments, m) {
      var op := OpFor(m, true).value.value;
      CommandGrows(s.payments, m.paymentId, op);
      VersionMoves(s.payments[m.paymentId], op);
      CarriesOut(s.payments[m.paymentId], m, op);
    }
  }

  lemma AllowedIff(payments: PaymentStore.Table, m: Message)
    requires PaymentsOk(payments) && m.step != StepRefund
    ensures Allows(payments, m) <==> Decode(m.payload).Some? && Applied(payments, m, true).Some?
  {
    FoundIsTheRow(payments, m.paymentId);
    if m.paymentId in payments {
      assert PaymentOk(m.paymentId, payments[m.paymentId]);
    }
  }

  lemma CarriesOut(p: PaymentState, m: Message, op: Op)
    requires Decode(m.payload).Some? && OpFor(m, true) == Ok(Some(op)) && m.step != StepRefund
    requires Apply(p, op).Ok? && Apply(p, op).value.version == p.version + 1
    ensures CarriedOut(p, Apply(p, op).value, m.step, Decode(m.payload).value)
  {
  }

  /** A refusal changes no payment, except that it fails a pending one at the authorisation. */
  lemma DeclineOnlyFails(s: Sys, d: nat)
    requires Inv(s) && d in s.deliveries && s.deliveries[d].phase == Replied(false)
    ensures var (t, m) := (Next(s, Pay(d)), s.deliveries[d].message);
            && t.sagas == s.sagas && t.messages == s.messages && t.effects == s.effects
            && (t.payments == s.payments ||
                (m.step == StepAuthorize && m.paymentId in s.payments
                 && var p := s.payments[m.paymentId];
                    p.status == Status.Pending
                    && t.payments == s.payments[m.paymentId := p.(status := Status.Failed, version := p.version + 1)]))
            && (m.step != StepAuthorize && Decode(m.payload).Some? ==>
                  t.deliveries == s.deliveries[d := s.deliveries[d].(phase := Concluded(false))])
  {
    var m := s.deliveries[d].message;
    if Decode(m.payload).Some? && m.step == StepAuthorize && Applied(s.payments, m, false).Some? {
      CommandGrows(s.payments, m.paymentId, Op.Fail);
      VersionMoves(s.payments[m.paymentId], Op.Fail);
    }
  }

  // ----- The saga after the outcome -----

  /** What the outcome of a step makes of its saga. */
  predicate CarriedOn(before: Instance, after: Instance, succeeded: bool, at: int) {
    var moved := before.(version := before.version + 1, updatedAt := at);
    match before.status
    case StatusRunning =>
      if before.currentStep == StepAuthorize then
        if succeeded then after == moved.(completed := [StepAuthorize], currentStep := StepCapture)
        else after == moved.(status := StatusFailed)
      else
        if succeeded then after == moved.(completed := [StepAuthorize, StepCapture], status := StatusCompleted)
        else after == moved.(status := StatusCompensating, compensation := [StepCancel], currentStep := StepCancel)
    case StatusCompensating =>
      if succeeded then after == moved.(compensation := [], status := StatusFailed) else after == before
    case _ => after == before
  }

  /**
   The outcome of the current step moves the stored saga on, or ends it, and nothing else;
   a copy that is not the stored one any more moves nothing.
   */
  lemma OutcomeCarriesOn(s: Sys, d: nat, at: int)
    requires Inv(s) && d in s.deliveries && s.deliveries[d].phase.Concluded?
    ensures var (t, delivery) := (Next(s, SaveAdvanced(d, at)), s.deliveries[d]);
            var id := delivery.saga.id;
            && t.payments == s.payments && t.messages == s.messages && t.effects == s.effects
            && id in s.sagas && id in t.sagas
            && if s.sagas[id].version != delivery.saga.version then t.sagas == s.sagas
               else t.sagas == s.sagas[id := t.sagas[id]]
                    && CarriedOn(s.sagas[id], t.sagas[id], delivery.phase.succeeded, at)
  {
    var delivery := s.deliveries[d];
    assert DeliveryOk(s.payments, s.sagas, delivery);
    ConclusionCarriesOn(s.payments, delivery.saga, delivery.message.step, delivery.phase.succeeded, at);
  }

  lemma ConclusionCarriesOn(payments: PaymentStore.Table, i: Instance, step: SagaStep, succeeded: bool, at: int)
    requires Shape(payments, i) && Open(i) && step == i.currentStep
    ensures match Advanced(i, step, succeeded, at)
            case Ok(j) =>
              CarriedOn(i, j, succeeded, at) && j.id == i.id && j.paymentId == i.paymentId && j.version == i.version + 1
            case Err(_) => i.status == StatusCompensating && !succeeded
  {
  }
}
