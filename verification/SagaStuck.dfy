/** Which sagas a redelivery can move, and the sagas whose payment was failed before they were saved. */
module SagaStuck {
  import opened Outcomes
  import opened Decimal
  import opened Payments
  import opened Sagas
  import opened SagaRuns
  import opened SagaTheorems
  import opened SagaSchedules
  import SagaOrchestrator
  import PaymentStore

  /** A saga whose payment failed before it could be saved. */
  predicate Stuck(s: Sys, id: string) {
    match s
    case Sys(payments, sagas, _, deliveries, _) =>
      && id in sagas && sagas[id].status == StatusRunning && sagas[id].currentStep == StepAuthorize &&
         PaymentFailed(payments, sagas[id])
      && forall d :: d in deliveries && deliveries[d].message.sagaId == id ==> !deliveries[d].phase.Concluded?
  }

  /** The executor of a stuck saga's message finds nothing applied and can apply nothing. */
  lemma StuckDecision(s: Sys, delivery: Delivery, answer: Answer, approved: bool)
    requires Inv(s) && DeliveryOk(s.payments, s.sagas, delivery) && !delivery.phase.Stored? &&
             Stuck(s, delivery.message.sagaId)
    ensures Decide(s.payments, delivery.message, answer) != AlreadyApplied
    ensures Decode(delivery.message.payload).Some? ==> Applied(s.payments, delivery.message, approved) == None
  {
    var m := delivery.message;
    assert Shape(s.payments, s.sagas[m.sagaId]);
    FoundIsTheRow(s.payments, m.paymentId);
    assert PaymentOk(m.paymentId, s.payments[m.paymentId]);
    assert m.step == StepAuthorize;
  }

  /** A stuck saga stays so when its row stays, payments move forward and none of its deliveries is concluded. */
  lemma StuckLasts(s: Sys, t: Sys, id: string)
    requires Stuck(s, id) && Grows(s.payments, t.payments) && id in t.sagas && t.sagas[id] == s.sagas[id]
    requires NoNewConclusion(s.deliveries, t.deliveries, id)
    ensures Stuck(t, id)
  {
    assert Later(s.payments[s.sagas[id].paymentId], t.payments[s.sagas[id].paymentId]);
  }

  lemma StuckSave(s: Sys, d: nat, at: int, id: string)
    requires Inv(s) && Stuck(s, id)
    ensures id in Next(s, SaveAdvanced(d, at)).sagas && Next(s, SaveAdvanced(d, at)).sagas[id] == s.sagas[id]
  {
    if d in s.deliveries && s.deliveries[d].phase.Concluded? {
      var delivery := s.deliveries[d];
      assert DeliveryOk(s.payments, s.sagas, delivery);
      var advanced := Advanced(delivery.saga, delivery.message.step, delivery.phase.succeeded, at);
      if advanced.Ok? {
        AdvanceIsShaped(s, delivery, delivery.phase.succeeded, at);
      }
    }
  }

  ghost predicate NoNewConclusion(before: map<nat, Delivery>, after: map<nat, Delivery>, id: string) {
    forall d :: d in after && after[d].message.sagaId == id ==>
                  !after[d].phase.Concluded? || (d in before && after[d] == before[d])
  }

  lemma StuckAsk(s: Sys, d: nat, delivery: Delivery, answer: Answer, id: string)
    requires Inv(s) && Stuck(s, id) && DeliveryOk(s.payments, s.sagas, delivery) && delivery.phase == Loaded
    ensures NoNewConclusion(s.deliveries, AfterAsk(s, d, delivery, answer).deliveries, id)
  {
    if delivery.message.sagaId == id {
      StuckDecision(s, delivery, answer, true);
    }
  }

  lemma StuckPay(s: Sys, d: nat, delivery: Delivery, approved: bool, id: string)
    requires Inv(s) && Stuck(s, id) && DeliveryOk(s.payments, s.sagas, delivery) && delivery.phase == Replied(approved)
    ensures NoNewConclusion(s.deliveries, AfterPay(s, d, delivery, approved).deliveries, id)
  {
    if delivery.message.sagaId == id {
      StuckDecision(s, delivery, Unavailable, approved);
    }
  }

  lemma StuckQuiet(before: map<nat, Delivery>, after: map<nat, Delivery>, id: string)
    requires forall d :: d in after ==> (d in before && after[d] == before[d]) || !after[d].phase.Concluded?
    ensures NoNewConclusion(before, after, id)
  {
  }

  lemma OnlyAskAndPayConclude(s: Sys, step: Step)
    requires !step.Ask? && !step.Pay?
    ensures var after := Next(s, step).deliveries;
            forall d :: d in after ==> (d in s.deliveries && after[d] == s.deliveries[d]) || !after[d].phase.Concluded?
  {
  }

  lemma StuckConclusions(s: Sys, step: Step, id: string)
    requires Inv(s) && Stuck(s, id)
    ensures NoNewConclusion(s.deliveries, Next(s, step).deliveries, id)
  {
    match step
    case Ask(d, answer) =>
      if d in s.deliveries && s.deliveries[d].phase == Loaded {
        StuckAsk(s, d, s.deliveries[d], answer, id);
      }
    case Pay(d) =>
      if d in s.deliveries && s.deliveries[d].phase.Replied? {
        StuckPay(s, d, s.deliveries[d], s.deliveries[d].phase.approved, id);
      }
    case _ =>
      OnlyAskAndPayConclude(s, step);
      StuckQuiet(s.deliveries, Next(s, step).deliveries, id);
  }

  lemma StuckRow(s: Sys, step: Step, id: string)
    requires Inv(s) && Stuck(s, id)
    ensures id in Next(s, step).sagas && Next(s, step).sagas[id] == s.sagas[id]
  {
    match step
    case Start(other, paymentId, payload, seed, at, published) =>
      StartKeepsInv(s, other, paymentId, payload, seed, at, published);
    case SaveAdvanced(d, at) => StuckSave(s, d, at, id);
    case _ => OtherStepsKeepSagas(s, step);
  }

  lemma StuckStep(s: Sys, step: Step, id: string)
    requires Inv(s) && Stuck(s, id)
    ensures Stuck(Next(s, step), id)
  {
    PaymentsGrow(s, step);
    StuckRow(s, step, id);
    StuckConclusions(s, step, id);
    StuckLasts(s, Next(s, step), id);
  }

  /**
   A crash after the payment was failed and before the saga is saved is final: no
   redelivery, whatever the provider answers, ever moves the saga.
   */
  lemma {:induction false} FailedAuthorisationIsNotRerun(s: Sys, steps: seq<Step>, id: string)
    requires Inv(s) && Stuck(s, id)
    ensures Inv(Run(s, steps)) && Stuck(Run(s, steps), id) && Run(s, steps).sagas[id] == s.sagas[id]
  {
    if steps != [] {
      var init := steps[..|steps| - 1];
      FailedAuthorisationIsNotRerun(s, init, id);
      StepKeepsInv(Run(s, init), steps[|steps| - 1]);
      StuckRow(Run(s, init), steps[|steps| - 1], id);
      StuckStep(Run(s, init), steps[|steps| - 1], id);
    }
  }

  // ----- How a saga gets stuck -----

  function FailedOf(o: Order): PaymentState {
    PaymentState(o.payment, Money(o.total, o.currency), Failed, 0, 0, 0, 2)
  }

  /** The provider declines, the payment is failed, and the process dies before it saves the saga. */
  function Crash(o: Order): seq<Step> {
    [Deliver(0, AuthorizeMessage(o))] + ([Ask(0, Final(false))] + ([Pay(0)] + ([Drop(0)] + [])))
  }

  lemma FourSteps(s: Sys, a: Step, b: Step, c: Step, d: Step)
    ensures Run(s, [a] + ([b] + ([c] + ([d] + [])))) == Next(Next(Next(Next(s, a), b), c), d)
  {
    RunFirst(s, a, [b] + ([c] + ([d] + [])));
    RunFirst(Next(s, a), b, [c] + ([d] + []));
    RunFirst(Next(Next(s, a), b), c, [d] + []);
    RunFirst(Next(Next(Next(s, a), b), c), d, []);
  }

  lemma CrashRuns(o: Order)
    requires Proper(o)
    ensures Run(Started(o), Crash(o)) ==
            Started(o).(payments := map[o.payment := FailedOf(o)],
              effects := [Asked(o.saga, StepAuthorize, "", 0, Declined)])
  {
    var s, m := Started(o), AuthorizeMessage(o);
    Delivering(s, 0, m);
    var s1 := s.(deliveries := map[0 := Delivery(m, First(o), Loaded)]);
    Asking(s1, 0, false);
    var s2 := s.(deliveries := map[0 := Delivery(m, First(o), Replied(false))],
        effects := [Asked(o.saga, StepAuthorize, "", 0, Declined)]);
    assert Next(s1, Ask(0, Final(false))) == s2;
    var payments := map[o.payment := FailedOf(o)];
    assert s2.payments[o.payment := FailedOf(o)] == payments;
    assert Applied(s2.payments, m, false) == Some(payments);
    Paying(s2, 0, false, payments);
    assert s2.deliveries[0 := Delivery(m, First(o), Concluded(false))] - {0} == map[];
    FourSteps(s, Deliver(0, m), Ask(0, Final(false)), Pay(0), Drop(0));
  }

  /**
   Every saga over a new payment can lose its outcome: after one declined delivery that
   dies between payment commit and saga save, it runs at its authorisation for ever.
   */
  lemma CrashStrandsAnySaga(o: Order, more: seq<Step>)
    requires Proper(o)
    ensures var s := Run(INIT, Starting(o) + Crash(o));
            && Stuck(s, o.saga) && s.deliveries == map[] && AuthorizeMessage(o) in s.messages
            && s.sagas[o.saga] == First(o) && s.payments[o.payment].status == Failed
            && o.saga in Run(s, more).sagas && Run(s, more).sagas[o.saga] == First(o)
  {
    RunAppend(INIT, Starting(o), Crash(o));
    StartingRuns(o);
    CrashRuns(o);
    RunKeepsInv(Starting(o) + Crash(o));
    FailedAuthorisationIsNotRerun(Run(INIT, Starting(o) + Crash(o)), more, o.saga);
  }

  // ----- Exactly when a redelivery moves a saga -----

  function Redelivered(s: Sys, d: nat, m: Message, answer: Answer, at: int): Sys {
    Next(Next(Next(Next(s, Deliver(d, m)), Ask(d, answer)), Pay(d)), SaveAdvanced(d, at))
  }

  /** A saga that runs at its authorisation, with its message published and no outcome under way. */
  predicate Authorising(s: Sys, m: Message) {
    match s
    case Sys(_, sagas, messages, deliveries, _) =>
      && m in messages && ValidMessage(m) && m.operationId == "" && m.step == StepAuthorize && Decode(m.payload).Some?
      && m.sagaId in sagas && sagas[m.sagaId].status == StatusRunning && sagas[m.sagaId].currentStep == StepAuthorize
      && forall d :: d in deliveries && deliveries[d].message.sagaId == m.sagaId ==> !deliveries[d].phase.Concluded?
  }

  /** A payment that is neither authorised nor failed is new, and the command authorises it. */
  lemma NewIsAuthorised(s: Sys, m: Message)
    requires Inv(s) && Authorising(s, m) && m.paymentId in s.payments && s.payments[m.paymentId].status != Failed
    requires s.payments[m.paymentId].authorized != s.payments[m.paymentId].amount.amount
    ensures Asks(s.payments, m) && Applied(s.payments, m, true).Some?
  {
    FoundIsTheRow(s.payments, m.paymentId);
    assert PaymentOk(m.paymentId, s.payments[m.paymentId]);
  }

  lemma ConcludedIsSaved(s: Sys, i: Instance, m: Message, d: nat, at: int)
    requires SagasOk(s.payments, s.sagas) && i.id in s.sagas && s.sagas[i.id] == i && i.status == StatusRunning
    requires i.currentStep == StepAuthorize && m.step == StepAuthorize
    requires d in s.deliveries && s.deliveries[d] == Delivery(m, i, Concluded(true))
    ensures i.id in Next(s, SaveAdvanced(d, at)).sagas && Next(s, SaveAdvanced(d, at)).sagas[i.id] != i
  {
    assert Shape(s.payments, i);
    SeenIsSaved(s, d, s.deliveries[d], at);
  }

  lemma ApprovedDelivery(s: Sys, d: nat, m: Message)
    requires Inv(s) && Authorising(s, m) && d !in s.deliveries && m.paymentId in s.payments &&
             s.payments[m.paymentId].status != Failed
    ensures var t := Next(Next(Next(s, Deliver(d, m)), Ask(d, Approved)), Pay(d));
            && t.sagas == s.sagas && d in t.deliveries &&
               t.deliveries[d] == Delivery(m, s.sagas[m.sagaId], Concluded(true))
  {
    var i := s.sagas[m.sagaId];
    Delivering(s, d, m);
    var s1 := s.(deliveries := s.deliveries[d := Delivery(m, i, Loaded)]);
    assert MessageOk(s.sagas, m);
    if s.payments[m.paymentId].authorized == s.payments[m.paymentId].amount.amount {
      DoneIsSeen(s1, d, s1.deliveries[d], Approved);
    } else {
      NewIsAuthorised(s, m);
      Asking(s1, d, true);
      var s2 := Next(s1, Ask(d, Approved));
      Paying(s2, d, true, Applied(s.payments, m, true).value);
    }
  }

  lemma RedeliveryMoves(s: Sys, d: nat, m: Message, at: int)
    requires Inv(s) && Authorising(s, m) && d !in s.deliveries && m.paymentId in s.payments &&
             s.payments[m.paymentId].status != Failed
    ensures var t := Redelivered(s, d, m, Approved, at);
            m.sagaId in t.sagas && t.sagas[m.sagaId] != s.sagas[m.sagaId]
  {
    ApprovedDelivery(s, d, m);
    var t := Next(Next(Next(s, Deliver(d, m)), Ask(d, Approved)), Pay(d));
    StepKeepsInv(s, Deliver(d, m));
    StepKeepsInv(Next(s, Deliver(d, m)), Ask(d, Approved));
    StepKeepsInv(Next(Next(s, Deliver(d, m)), Ask(d, Approved)), Pay(d));
    assert s.sagas[m.sagaId].id == m.sagaId;
    ConcludedIsSaved(t, s.sagas[m.sagaId], m, d, at);
  }

  lemma RedeliveredRuns(s: Sys, d: nat, m: Message, answer: Answer, at: int)
    ensures Redelivered(s, d, m, answer, at) ==
            Run(s, [Deliver(d, m)] + ([Ask(d, answer)] + ([Pay(d)] + ([SaveAdvanced(d, at)] + []))))
  {
    FourSteps(s, Deliver(d, m), Ask(d, answer), Pay(d), SaveAdvanced(d, at));
  }

  lemma FailedIsStuck(s: Sys, m: Message)
    requires Inv(s) && Authorising(s, m) && PaymentFailed(s.payments, s.sagas[m.sagaId])
    ensures Stuck(s, m.sagaId)
  {
  }

  predicate Moved(s: Sys, t: Sys, id: string) {
    id in s.sagas && id in t.sagas && t.sagas[id] != s.sagas[id]
  }

  /** A published message of the step at which its saga is. */
  predicate Current(s: Sys, m: Message) {
    && m in s.messages && ValidMessage(m) && m.operationId == ""
    && m.sagaId in s.sagas && Open(s.sagas[m.sagaId]) && s.sagas[m.sagaId].currentStep == m.step
  }

  /** Whether the payment lets a delivery of the message end, for the provider's best answer. */
  predicate CanMove(payments: PaymentStore.Table, m: Message) {
    m.paymentId in payments
    && match Decode(m.payload)
       case None => false
       case Some(input) =>
         match m.step
         case StepAuthorize => payments[m.paymentId].status != Failed
         case StepCapture =>
           NewMoney(input.amount, input.currency).Ok? || StepAlreadyApplied(payments[m.paymentId], StepCapture, input)
         case StepCancel => payments[m.paymentId].status == Authorized || payments[m.paymentId].status == Cancelled
         case StepRefund => false
  }

  /** What the executor returns when the delivery then moves the saga. */
  predicate Moving(execution: SagaOrchestrator.Execution, i: Instance) {
    execution.Finished? && (execution.succeeded || i.status == StatusRunning)
  }

  lemma SavingMoves(s: Sys, d: nat, i: Instance, m: Message, succeeded: bool, at: int)
    requires d in s.deliveries && s.deliveries[d] == Delivery(m, i, Concluded(succeeded))
    requires i.id in s.sagas && s.sagas[i.id] == i && Open(i) && i.currentStep == m.step && Shape(s.payments, i)
    ensures i.id in Next(s, SaveAdvanced(d, at)).sagas
    ensures Next(s, SaveAdvanced(d, at)).sagas[i.id] != i <==> succeeded || i.status == StatusRunning
  {
  }

  /** A redelivery moves the saga exactly when the executor finishes so. */
  lemma MovesIffFinished(s: Sys, d: nat, m: Message, answer: Answer, at: int)
    requires Inv(s) && Current(s, m) && d !in s.deliveries
    ensures Moved(s, Redelivered(s, d, m, answer, at), m.sagaId) <==>
            Moving(SagaOrchestrator.Executed(s.payments, m, answer).0, s.sagas[m.sagaId])
  {
    var i := s.sagas[m.sagaId];
    var loaded := s.(deliveries := s.deliveries[d := Delivery(m, i, Loaded)]);
    assert MessageOk(s.sagas, m) && i.id == m.sagaId;
    Delivering(s, d, m);
    SagaOrchestrator.ExecutionSteps(loaded, d, i, m, answer);
    StepKeepsInv(s, Deliver(d, m));
    StepKeepsInv(loaded, Ask(d, answer));
    StepKeepsInv(Next(loaded, Ask(d, answer)), Pay(d));
    var t := Next(Next(loaded, Ask(d, answer)), Pay(d));
    match SagaOrchestrator.Executed(s.payments, m, answer).0
    case Finished(succeeded) =>
      assert Shape(t.payments, t.sagas[m.sagaId]);
      SavingMoves(t, d, i, m, succeeded, at);
    case _ => assert Next(t, SaveAdvanced(d, at)) == t;
  }

  /** The answer with which a saga moves if it can. */
  function BestAnswer(m: Message): Answer {
    if m.step == StepCapture then Declined else Approved
  }

  lemma BestAnswerFinishes(s: Sys, m: Message)
    requires Inv(s) && Current(s, m) && CanMove(s.payments, m)
    ensures Moving(SagaOrchestrator.Executed(s.payments, m, BestAnswer(m)).0, s.sagas[m.sagaId])
  {
    FoundIsTheRow(s.payments, m.paymentId);
    assert MessageOk(s.sagas, m) && Shape(s.payments, s.sagas[m.sagaId]);
    assert PaymentOk(m.paymentId, s.payments[m.paymentId]);
  }

  lemma FinishedCanMove(s: Sys, m: Message, answer: Answer)
    requires Inv(s) && Current(s, m) && Moving(SagaOrchestrator.Executed(s.payments, m, answer).0, s.sagas[m.sagaId])
    ensures CanMove(s.payments, m)
  {
    FoundIsTheRow(s.payments, m.paymentId);
    assert MessageOk(s.sagas, m) && Shape(s.payments, s.sagas[m.sagaId]);
    assert m.paymentId in s.payments ==> PaymentOk(m.paymentId, s.payments[m.paymentId]);
  }

  /**
   At any step of a saga, redelivering its message moves it, for some answer of the
   provider, exactly when its payload decodes, its payment exists and: at the
   authorisation, the payment has not failed; at the capture, the requested money is proper
   or was captured already; at the cancellation, the payment is authorised or cancelled, so
   that nothing of it was captured from outside.
   */
  lemma {:induction false} RedeliveryMovesIff(steps: seq<Step>, d: nat, m: Message, at: int)
    requires Current(Run(INIT, steps), m) && d !in Run(INIT, steps).deliveries
    ensures var s := Run(INIT, steps);
            (exists answer :: Moved(s, Redelivered(s, d, m, answer, at), m.sagaId)) <==> CanMove(s.payments, m)
  {
    var s := Run(INIT, steps);
    RunKeepsInv(steps);
    if CanMove(s.payments, m) {
      BestAnswerFinishes(s, m);
      MovesIffFinished(s, d, m, BestAnswer(m), at);
      assert Moved(s, Redelivered(s, d, m, BestAnswer(m), at), m.sagaId);
    }
    if answer :| Moved(s, Redelivered(s, d, m, answer, at), m.sagaId) {
      MovesIffFinished(s, d, m, answer, at);
      FinishedCanMove(s, m, answer);
    }
  }

  /** Making room for delivery 0, creating a missing payment, and delivering with approval. */
  function Rescue(m: Message): seq<Step> {
    [Drop(0)] + ([Create(m.paymentId, 1, "USD")]
    + ([Deliver(0, m)] + ([Ask(0, Approved)] + ([Pay(0)] + ([SaveAdvanced(0, 1)] + [])))))
  }

  lemma Prepared(s: Sys, m: Message)
    requires Inv(s) && Authorising(s, m) && !PaymentFailed(s.payments, s.sagas[m.sagaId])
    ensures var t := Next(Next(s, Drop(0)), Create(m.paymentId, 1, "USD"));
            && Inv(t) && Authorising(t, m) && t.sagas == s.sagas && 0 !in t.deliveries
            && m.paymentId in t.payments && t.payments[m.paymentId].status != Failed
  {
    assert MessageOk(s.sagas, m);
    var s1 := Next(s, Drop(0));
    StepKeepsInv(s, Drop(0));
    StepKeepsInv(s1, Create(m.paymentId, 1, "USD"));
    CreationGrows(s1, m.paymentId, 1, "USD");
    Created(s1, m.paymentId);
  }

  lemma Created(s: Sys, id: string)
    requires PaymentsOk(s.payments) && id != "" && (id in s.payments ==> s.payments[id].status != Failed)
    ensures var t := AfterCreate(s, id, 1, "USD");
            id in t.payments && t.payments[id].status != Failed
  {
    assert ValidCurrency("USD");
    assert id in s.payments ==> PaymentOk(id, s.payments[id]);
  }

  /**
   Such a saga can still be moved by some continuation of the run exactly when its
   payment has not failed: the failure is the one state that nothing gets it out of.
   */
  lemma {:induction false} StrandedIffPaymentFailed(steps: seq<Step>, m: Message)
    requires Authorising(Run(INIT, steps), m)
    ensures var s := Run(INIT, steps);
            (exists more :: Moved(s, Run(s, more), m.sagaId)) <==> !PaymentFailed(s.payments, s.sagas[m.sagaId])
  {
    var s := Run(INIT, steps);
    RunKeepsInv(steps);
    if PaymentFailed(s.payments, s.sagas[m.sagaId]) {
      FailedIsStuck(s, m);
      forall more
        ensures !Moved(s, Run(s, more), m.sagaId)
      {
        FailedAuthorisationIsNotRerun(s, more, m.sagaId);
      }
    } else {
      Prepared(s, m);
      var s1 := Next(s, Drop(0));
      var t := Next(s1, Create(m.paymentId, 1, "USD"));
      RedeliveryMoves(t, 0, m, 1);
      RedeliveredRuns(t, 0, m, Approved, 1);
      var last := [Deliver(0, m)] + ([Ask(0, Approved)] + ([Pay(0)] + ([SaveAdvanced(0, 1)] + [])));
      RunFirst(s1, Create(m.paymentId, 1, "USD"), last);
      RunFirst(s, Drop(0), [Create(m.paymentId, 1, "USD")] + last);
      assert Moved(s, Run(s, Rescue(m)), m.sagaId);
    }
  }
}
