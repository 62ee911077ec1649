/** Schedules of the saga runtime that begin with one order: a payment and a saga over it. */
module SagaSchedules {
  import opened Outcomes
  import opened Decimal
  import opened Payments
  import opened Sagas
  import opened SagaRuns
  import PaymentStore

  /** A payment of `total` and a saga over it. */
  datatype Order = Order(saga: string, payment: string, total: int, currency: string, payload: Payload)

  /** What creating the payment and starting the saga demand. */
  predicate Admissible(o: Order) {
    o.saga != "" && o.payment != "" && 0 < o.total && ValidCurrency(o.currency)
  }

  predicate Proper(o: Order) {
    Admissible(o) && Decode(o.payload).Some?
  }

  function Ordered(o: Order): PaymentState {
    PaymentState(o.payment, Money(o.total, o.currency), Status.Pending, 0, 0, 0, 1)
  }

  function First(o: Order): Instance {
    Instance(o.saga, o.payment, o.payload, StatusRunning, StepAuthorize, [], [], 0, 1, 1)
  }

  function AuthorizeMessage(o: Order): Message {
    CurrentMessage(First(o), 1)
  }

  function Starting(o: Order): seq<Step> {
    [Create(o.payment, o.total, o.currency), Start(o.saga, o.payment, o.payload, 0, 1, true)]
  }

  function Started(o: Order): Sys {
    Sys(map[o.payment := Ordered(o)], map[o.saga := First(o)], {AuthorizeMessage(o)}, map[], [])
  }

  lemma {:induction false} RunAppend(s: Sys, first: seq<Step>, second: seq<Step>)
    ensures Run(s, first + second) == Run(Run(s, first), second)
  {
    if second == [] {
      assert first + second == first;
    } else {
      var all, init := first + second, second[..|second| - 1];
      RunAppend(s, first, init);
      assert all[..|all| - 1] == first + init;
    }
  }

  lemma RunFirst(s: Sys, step: Step, rest: seq<Step>)
    ensures Run(s, [step] + rest) == Run(Next(s, step), rest)
  {
    RunAppend(s, [step], rest);
    assert [step][..0] == [];
    assert Run(s, [step]) == Next(Run(s, []), step);
  }

  lemma StartingRuns(o: Order)
    requires Proper(o)
    ensures Run(INIT, Starting(o)) == Started(o)
  {
    var create, start := Create(o.payment, o.total, o.currency), Start(o.saga, o.payment, o.payload, 0, 1, true);
    assert Next(INIT, create) == INIT.(payments := map[o.payment := Ordered(o)]);
    assert Next(Next(INIT, create), start) == Started(o);
    assert Starting(o) == [create] + ([start] + []);
    RunFirst(INIT, create, [start] + []);
    RunFirst(Next(INIT, create), start, []);
  }

  lemma Delivering(s: Sys, d: nat, m: Message)
    requires d !in s.deliveries && m in s.messages && ValidMessage(m) && m.sagaId in s.sagas
    requires Open(s.sagas[m.sagaId]) && s.sagas[m.sagaId].currentStep == m.step
    ensures Next(s, Deliver(d, m)) == s.(deliveries := s.deliveries[d := Delivery(m, s.sagas[m.sagaId], Loaded)])
  {
  }

  /** The provider's final answer. */
  function Final(approved: bool): Answer {
    if approved then Approved else Declined
  }

  lemma Asking(s: Sys, d: nat, approved: bool)
    requires d in s.deliveries && s.deliveries[d].phase == Loaded && Asks(s.payments, s.deliveries[d].message)
    ensures var m := s.deliveries[d].message;
            Next(s, Ask(d, Final(approved))) ==
            s.(deliveries := s.deliveries[d := s.deliveries[d].(phase := Replied(approved))],
               effects := s.effects + [Asked(m.sagaId, m.step, m.operationId, d, Final(approved))])
  {
  }

  lemma Paying(s: Sys, d: nat, approved: bool, payments: PaymentStore.Table)
    requires d in s.deliveries && s.deliveries[d].phase == Replied(approved) &&
             Decode(s.deliveries[d].message.payload).Some?
    requires Applied(s.payments, s.deliveries[d].message, approved) == Some(payments)
    ensures var m := s.deliveries[d].message;
            Next(s, Pay(d)) ==
            s.(payments := payments, deliveries := s.deliveries[d := s.deliveries[d].(phase := Concluded(approved))],
               effects := if approved then s.effects + [Paid(m.sagaId, m.step, m.operationId, d)] else s.effects)
  {
  }
}
