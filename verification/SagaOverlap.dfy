/**
 When a saga captures more than once. Two deliveries of one capture message that both
 read the payment before either captures will capture twice, unless the payment is too
 small to allow it.
 */
module SagaOverlap {
  import opened Outcomes
  import opened Decimal
  import opened Payments
  import opened Sagas
  import opened SagaRuns
  import opened SagaEffects
  import opened SagaSchedules
  import PaymentStore

  /** The payment of an order that leaves room for two captures of what its saga asks for. */
  predicate TwoFit(o: Order) {
    && Proper(o) && o.payload.Request? && o.payload.input.currency == o.currency
    && 0 < o.payload.input.amount && 2 * o.payload.input.amount <= o.total
  }

  function AuthorizedOf(o: Order): PaymentState {
    PaymentState(o.payment, Money(o.total, o.currency), Authorized, o.total, 0, 0, 2)
  }

  function CapturedOnce(o: Order, amount: int): PaymentState {
    PaymentState(o.payment, Money(o.total, o.currency), PartiallyCaptured, o.total, amount, 0, 3)
  }

  function CapturedTwice(o: Order, amount: int): PaymentState {
    PaymentState(o.payment, Money(o.total, o.currency), if 2 * amount == o.total then Captured
        else PartiallyCaptured, o.total, 2 * amount, 0, 4)
  }

  function Second(o: Order): Instance {
    Instance(o.saga, o.payment, o.payload, StatusRunning, StepCapture, [StepAuthorize], [], 0, 2, 1)
  }

  function CaptureMessage(o: Order): Message {
    CurrentMessage(Second(o), 1)
  }

  /** The authorisation of a saga is carried out, saved and published. */
  function Authorising(o: Order): seq<Step> {
    [Deliver(0, AuthorizeMessage(o))] +
      ([Ask(0, Final(true))] + ([Pay(0)] + ([SaveAdvanced(0, 1)] + ([Publish(0)] + []))))
  }

  /** Two deliveries of its capture message, each approved before either has captured. */
  function Overlap(o: Order): seq<Step> {
    [Deliver(0, CaptureMessage(o))] +
      ([Deliver(1, CaptureMessage(o))] +
      ([Ask(0, Final(true))] + ([Ask(1, Final(true))] + ([Pay(0)] + ([Pay(1)] + [])))))
  }

  function Opened(o: Order): Sys {
    Sys(map[o.payment := AuthorizedOf(o)], map[o.saga := Second(o)], {AuthorizeMessage(o), CaptureMessage(o)}, map[],
        [Asked(o.saga, StepAuthorize, "", 0, Approved), Paid(o.saga, StepAuthorize, "", 0)])
  }

  lemma Saving(s: Sys, o: Order)
    requires s.sagas == map[o.saga := First(o)]
    requires s.deliveries == map[0 := Delivery(AuthorizeMessage(o), First(o), Concluded(true))]
    ensures Next(s, SaveAdvanced(0, 1)) ==
            s.(sagas := map[o.saga := Second(o)],
              deliveries := map[0 := Delivery(AuthorizeMessage(o), Second(o), Stored(1))])
  {
    assert First(o).completed + [StepAuthorize] == [StepAuthorize];
    assert Advanced(First(o), StepAuthorize, true, 1) == Ok(Second(o));
    assert s.sagas[o.saga := Second(o)] == map[o.saga := Second(o)];
    assert SaveSaga(s.sagas, Second(o)) == Some(map[o.saga := Second(o)]);
    assert s.deliveries[0 := Delivery(AuthorizeMessage(o), Second(o), Stored(1))] ==
           map[0 := Delivery(AuthorizeMessage(o), Second(o), Stored(1))];
  }

  lemma BothCaptures(o: Order, amount: int)
    requires TwoFit(o) && amount == o.payload.input.amount
    ensures Applied(map[o.payment := AuthorizedOf(o)], CaptureMessage(o), true) ==
            Some(map[o.payment := CapturedOnce(o, amount)])
    ensures Applied(map[o.payment := CapturedOnce(o, amount)], CaptureMessage(o), true) ==
            Some(map[o.payment := CapturedTwice(o, amount)])
  {
    Capturing(o, AuthorizedOf(o), CapturedOnce(o, amount));
    Capturing(o, CapturedOnce(o, amount), CapturedTwice(o, amount));
  }

  lemma Capturing(o: Order, p: PaymentState, q: PaymentState)
    requires TwoFit(o) && PaymentOk(o.payment, p)
    requires Apply(p, Op.Capture(Money(o.payload.input.amount, o.currency))) == Ok(q) && q.version == p.version + 1
    ensures Applied(map[o.payment := p], CaptureMessage(o), true) == Some(map[o.payment := q])
  {
    FoundIsTheRow(map[o.payment := p], o.payment);
    assert map[o.payment := p][o.payment := q] == map[o.payment := q];
  }

  /** The first delivery, up to its payment command. */
  lemma Authorised(o: Order)
    requires Proper(o)
    ensures var (s, m) := (Started(o), AuthorizeMessage(o));
            Next(Next(Next(s, Deliver(0, m)), Ask(0, Final(true))), Pay(0)) ==
            Sys(map[o.payment := AuthorizedOf(o)], s.sagas, s.messages,
              map[0 := Delivery(m, First(o), Concluded(true))], Opened(o).effects)
  {
    var s, m := Started(o), AuthorizeMessage(o);
    Delivering(s, 0, m);
    var s1 := s.(deliveries := map[0 := Delivery(m, First(o), Loaded)]);
    Asking(s1, 0, true);
    var s2 := s.(deliveries := map[0 := Delivery(m, First(o), Replied(true))],
        effects := [Asked(o.saga, StepAuthorize, "", 0, Approved)]);
    assert Next(s1, Ask(0, Final(true))) == s2;
    var payments := map[o.payment := AuthorizedOf(o)];
    assert s2.payments[o.payment := AuthorizedOf(o)] == payments;
    assert Applied(s2.payments, m, true) == Some(payments);
    Paying(s2, 0, true, payments);
    assert s2.deliveries[0 := Delivery(m, First(o), Concluded(true))] ==
        map[0 := Delivery(m, First(o), Concluded(true))];
  }

  lemma AuthorisingRuns(o: Order)
    requires Proper(o)
    ensures Run(Started(o), Authorising(o)) == Opened(o)
  {
    var s, m := Started(o), AuthorizeMessage(o);
    Authorised(o);
    var s3 := Sys(map[o.payment := AuthorizedOf(o)], s.sagas, s.messages,
        map[0 := Delivery(m, First(o), Concluded(true))], Opened(o).effects);
    Saving(s3, o);
    var s4 := s3.(sagas := map[o.saga := Second(o)], deliveries := map[0 := Delivery(m, Second(o), Stored(1))]);
    assert ValidMessage(CaptureMessage(o));
    assert s4.deliveries - {0} == map[];
    assert s4.messages + {CaptureMessage(o)} == Opened(o).messages;
    assert Next(s4, Publish(0)) == Opened(o);
    FiveSteps(s, Deliver(0, m), Ask(0, Final(true)), Pay(0), SaveAdvanced(0, 1), Publish(0));
  }

  lemma FiveSteps(s: Sys, a: Step, b: Step, c: Step, d: Step, e: Step)
    ensures Run(s, [a] + ([b] + ([c] + ([d] + ([e] + []))))) == Next(Next(Next(Next(Next(s, a), b), c), d), e)
  {
    RunFirst(s, a, [b] + ([c] + ([d] + ([e] + []))));
    RunFirst(Next(s, a), b, [c] + ([d] + ([e] + [])));
    RunFirst(Next(Next(s, a), b), c, [d] + ([e] + []));
    RunFirst(Next(Next(Next(s, a), b), c), d, [e] + []);
    RunFirst(Next(Next(Next(Next(s, a), b), c), d), e, []);
  }

  lemma BothReply(o: Order)
    requires TwoFit(o)
    ensures var (s, m) := (Opened(o), CaptureMessage(o));
            Next(Next(Next(Next(s, Deliver(0, m)), Deliver(1, m)), Ask(0, Final(true))), Ask(1, Final(true))) ==
            s.(deliveries :=
              map[0 := Delivery(m, Second(o), Replied(true)), 1 := Delivery(m, Second(o), Replied(true))],
               effects := s.effects +
                 [Asked(o.saga, StepCapture, "", 0, Approved), Asked(o.saga, StepCapture, "", 1, Approved)])
  {
    var s, m := Opened(o), CaptureMessage(o);
    var loaded, replied := Delivery(m, Second(o), Loaded), Delivery(m, Second(o), Replied(true));
    Delivering(s, 0, m);
    var s1 := s.(deliveries := map[0 := loaded]);
    Delivering(s1, 1, m);
    var s2 := s.(deliveries := map[0 := loaded, 1 := loaded]);
    assert Next(s1, Deliver(1, m)) == s2;
    Asking(s2, 0, true);
    var s3 := s.(deliveries := map[0 := replied, 1 := loaded],
                 effects := s.effects + [Asked(o.saga, StepCapture, "", 0, Approved)]);
    assert Next(s2, Ask(0, Final(true))) == s3;
    Asking(s3, 1, true);
  }

  lemma BothPay(o: Order, s: Sys)
    requires TwoFit(o)
    requires var m := CaptureMessage(o);
             s == Opened(o).(deliveries :=
               map[0 := Delivery(m, Second(o), Replied(true)), 1 := Delivery(m, Second(o), Replied(true))],
                             effects := Opened(o).effects +
                               [Asked(o.saga, StepCapture, "", 0, Approved),
                                 Asked(o.saga, StepCapture, "", 1, Approved)])
    ensures var t := Next(Next(s, Pay(0)), Pay(1));
            && t.sagas == s.sagas && t.payments == map[o.payment := CapturedTwice(o, o.payload.input.amount)]
            && t.effects == (s.effects + [Paid(o.saga, StepCapture, "", 0)]) + [Paid(o.saga, StepCapture, "", 1)]
  {
    var amount, m := o.payload.input.amount, CaptureMessage(o);
    BothCaptures(o, amount);
    var replied, concluded := Delivery(m, Second(o), Replied(true)), Delivery(m, Second(o), Concluded(true));
    var once, twice := map[o.payment := CapturedOnce(o, amount)], map[o.payment := CapturedTwice(o, amount)];
    Paying(s, 0, true, once);
    var t := s.(payments := once, deliveries := map[0 := concluded, 1 := replied],
                effects := s.effects + [Paid(o.saga, StepCapture, "", 0)]);
    assert s.deliveries[0 := concluded] == t.deliveries;
    Paying(t, 1, true, twice);
  }

  lemma OverlapRuns(s: Sys, o: Order)
    ensures var m := CaptureMessage(o);
            Run(s, Overlap(o)) ==
            Next(Next(Next(Next(Next(Next(s, Deliver(0, m)), Deliver(1, m)), Ask(0, Final(true))), Ask(1, Final(true))),
              Pay(0)), Pay(1))
  {
    var m := CaptureMessage(o);
    var rest := [Deliver(1, m)] + ([Ask(0, Final(true))] + ([Ask(1, Final(true))] + ([Pay(0)] + ([Pay(1)] + []))));
    RunFirst(s, Deliver(0, m), rest);
    FiveSteps(Next(s, Deliver(0, m)), Deliver(1, m), Ask(0, Final(true)), Ask(1, Final(true)), Pay(0), Pay(1));
  }

  /** With overlap, any saga captures twice its amount of any payment that has room for it. */
  lemma OverlappingDeliveriesCaptureTwice(o: Order)
    requires TwoFit(o)
    ensures var s := Run(INIT, Starting(o) + Authorising(o) + Overlap(o));
            && s.sagas == map[o.saga := Second(o)]
            && s.payments == map[o.payment := CapturedTwice(o, o.payload.input.amount)]
            && CaptureCount(s.effects, o.saga) == 2
  {
    RunAppend(INIT, Starting(o) + Authorising(o), Overlap(o));
    RunAppend(INIT, Starting(o), Authorising(o));
    StartingRuns(o);
    AuthorisingRuns(o);
    OverlapRuns(Opened(o), o);
    BothReply(o);
    var effects := Opened(o).effects +
        [Asked(o.saga, StepCapture, "", 0, Approved), Asked(o.saga, StepCapture, "", 1, Approved)];
    var m := CaptureMessage(o);
    var s := Opened(o).(deliveries :=
        map[0 := Delivery(m, Second(o), Replied(true)), 1 := Delivery(m, Second(o), Replied(true))],
        effects := effects);
    BothPay(o, s);
    CaptureCountSnoc(effects, Paid(o.saga, StepCapture, "", 0), o.saga);
    CaptureCountSnoc(effects + [Paid(o.saga, StepCapture, "", 0)], Paid(o.saga, StepCapture, "", 1), o.saga);
    NoneYet(o);
  }

  lemma NoneYet(o: Order)
    ensures CaptureCount(Opened(o).effects +
            [Asked(o.saga, StepCapture, "", 0, Approved), Asked(o.saga, StepCapture, "", 1, Approved)], o.saga) == 0
  {
    var asked, paid := Asked(o.saga, StepAuthorize, "", 0, Approved), Paid(o.saga, StepAuthorize, "", 0);
    var first, second := Asked(o.saga, StepCapture, "", 0, Approved), Asked(o.saga, StepCapture, "", 1, Approved);
    CaptureCountSnoc([], asked, o.saga);
    CaptureCountSnoc([asked], paid, o.saga);
    CaptureCountSnoc([asked, paid], first, o.saga);
    CaptureCountSnoc([asked, paid, first], second, o.saga);
    assert [] + [asked] == [asked] && [asked] + [paid] == [asked, paid] &&
        [asked, paid] + [first] == [asked, paid, first];
    assert [asked, paid, first] + [second] == Opened(o).effects + [first, second];
  }

  // ----- Exactly when -----

  /** A run holds the saga over the payment, as the order says. */
  predicate Holds(s: Sys, o: Order) {
    && o.saga in s.sagas && s.sagas[o.saga].paymentId == o.payment && s.sagas[o.saga].payload == o.payload
    && o.payment in s.payments && s.payments[o.payment].amount == Money(o.total, o.currency)
  }

  /**
   A saga over a payment captures at most once in every run, whatever is redelivered in
   whatever overlap, exactly when the payment has no room for two of its captures. Both
   amounts are known before the saga is started.
   */
  lemma {:induction false} AtMostOneCaptureIff(o: Order)
    requires Admissible(o)
    ensures (forall steps :: Holds(Run(INIT, steps), o) ==> CaptureCount(Run(INIT, steps).effects, o.saga) <= 1)
       <==> !(o.payload.Request? && o.payload.input.currency == o.currency
              && 0 < o.payload.input.amount && 2 * o.payload.input.amount <= o.total)
  {
    if TwoFit(o) {
      OverlappingDeliveriesCaptureTwice(o);
      var steps := Starting(o) + Authorising(o) + Overlap(o);
      assert Holds(Run(INIT, steps), o) && CaptureCount(Run(INIT, steps).effects, o.saga) == 2;
    } else {
      forall steps | Holds(Run(INIT, steps), o)
        ensures CaptureCount(Run(INIT, steps).effects, o.saga) <= 1
      {
        if CaptureCount(Run(INIT, steps).effects, o.saga) > 1 {
          CapturesAreCovered(steps, o.saga);
          Product(CaptureCount(Run(INIT, steps).effects, o.saga), o.payload.input.amount);
        }
      }
    }
  }

  lemma Product(n: nat, a: int)
    requires n >= 2 && a >= 0
    ensures n * a >= 2 * a
  {
  }
}
