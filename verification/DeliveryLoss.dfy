/**
 When deliveries are lost: a run for any two endpoints of which one is the other behind the
 type and version of an event, and so the exact condition on a set of endpoints.
 */
module DeliveryLoss {
  import opened Outcomes
  import opened RetryPolicy
  import opened Decimal
  import opened Payments
  import opened PaymentEvents
  import opened EventKinds
  import opened DeliveryIds
  import opened DeliveryRuns
  import Business = PaymentEventRuns
  import JobStore
  import Jobs

  // ----- Runs of commands alone -----

  predicate CommandsOnly(steps: seq<Business.Step>) {
    forall i :: 0 <= i < |steps| ==> !steps[i].Schedule?
  }

  function Lifted(steps: seq<Business.Step>): seq<Step> {
    seq(|steps|, i requires 0 <= i < |steps| => Step.Business(steps[i]))
  }

  lemma LiftedInit(steps: seq<Business.Step>)
    requires steps != []
    ensures Lifted(steps)[..|steps| - 1] == Lifted(steps[..|steps| - 1])
  {
  }

  lemma {:induction false} LiftedRuns(encode: Encoder, p: Policy, s: Sys, steps: seq<Business.Step>)
    requires Constructed(p) && CommandsOnly(steps)
    ensures Run(encode, p, s, Lifted(steps)).business == Business.Run(encode, s.business, steps)
  {
    if steps != [] {
      LiftedInit(steps);
      LiftedRuns(encode, p, s, steps[..|steps| - 1]);
      assert !steps[|steps| - 1].Schedule?;
    }
  }

  /** An event is published and due to an endpoint. */
  predicate Owes(s: Sys, k: string, endpoint: string) {
    k in s.due && endpoint in s.due[k] && k in s.business.db.events && s.business.db.events[k].id == k
  }

  lemma {:induction false} StillOwes(encode: Encoder, p: Policy, s: Sys, steps: seq<Step>, k: string, endpoint: string)
    requires Constructed(p) && Owes(s, k, endpoint)
    ensures Owes(Run(encode, p, s, steps), k, endpoint)
  {
    if steps != [] {
      StillOwes(encode, p, s, steps[..|steps| - 1], k, endpoint);
      DueIsRegistered(encode, p, Run(encode, p, s, steps[..|steps| - 1]), steps[|steps| - 1], k);
    }
  }

  lemma {:induction false} RunsAppend(encode: Encoder, p: Policy, s: Sys, first: seq<Step>, second: seq<Step>)
    requires Constructed(p)
    ensures Run(encode, p, s, first + second) == Run(encode, p, Run(encode, p, s, first), second)
  {
    if second == [] {
      assert first + second == first;
    } else {
      var all, init := first + second, second[..|second| - 1];
      RunsAppend(encode, p, s, first, init);
      assert all[..|all| - 1] == first + init;
    }
  }

  // ----- A run that loses a delivery -----

  /** The clock is set and two endpoints are registered. */
  function Setup(a: string, b: string): seq<Business.Step> {
    [Business.RestoreClock(1), Business.Register(a), Business.Register(b)]
  }

  function Ready(a: string, b: string): Business.Sys {
    Business.Sys(Db(map[], map[], JobStore.EMPTY, {a, b}), 1, map[])
  }

  lemma SetupRuns(encode: Encoder, at: int, a: string, b: string)
    requires a != "" && b != ""
    ensures Business.Run(encode, Business.Start(at), Setup(a, b)) == Ready(a, b)
  {
    var steps := Setup(a, b);
    assert steps[..2][..1] == steps[..1] && steps[..1][..0] == [];
    assert {} + {a} + {b} == {a, b};
    assert Business.Run(encode, Business.Start(at), steps) ==
           Business.Next(encode, Business.Run(encode, Business.Start(at), steps[..2]), steps[2]);
    assert Business.Run(encode, Business.Start(at), steps[..2]) ==
           Business.Next(encode, Business.Run(encode, Business.Start(at), steps[..1]), steps[1]);
    assert Business.Run(encode, Business.Start(at), steps[..1]) == Business.Next(encode, Business.Start(at), steps[0]);
  }

  lemma {:induction false} DriveIsAllowed(endpoints: set<string>, id: string, total: Int64, ops: seq<Op>)
    ensures CommandsOnly(Drive(id, total, ops)) && AllAllowed(endpoints, Lifted(Drive(id, total, ops)))
  {
    if ops != [] {
      DriveIsAllowed(endpoints, id, total, ops[..|ops| - 1]);
    }
    forall i | 0 <= i < |Drive(id, total, ops)|
      ensures Drive(id, total, ops)[i].Do?
    {
      DrivesOnly(id, total, ops, i);
    }
  }

  lemma {:induction false} DrivesOnly(id: string, total: Int64, ops: seq<Op>, i: nat)
    requires i < |Drive(id, total, ops)|
    ensures Drive(id, total, ops)[i].Do?
  {
    if ops != [] && i < |Drive(id, total, ops)| - 1 {
      DrivesOnly(id, total, ops[..|ops| - 1], i);
    }
  }

  /** A command that succeeds owes its event to every registered endpoint. */
  lemma PublishedIsOwed(encode: Encoder, p: Policy, s: Sys, cmd: Command, endpoint: string)
    requires Constructed(p) && Execute(encode, s.business.db, s.business.now, "", cmd).Ok? &&
             endpoint in s.business.db.endpoints
    ensures var payment := Execute(encode, s.business.db, s.business.now, "", cmd).value.1;
            Owes(Next(encode, p, s, Step.Business(Business.Do("", cmd))),
              TaggedId(payment.id, EventTypeOf(cmd), payment.version), endpoint)
  {
    var event := CommandPublishes(encode, s.business, "", cmd);
    var payment, same := Business.ExecutedEvent(encode, s.business.db, s.business.now, "", cmd);
    assert same.id == event.id;
  }

  lemma CreationExecutes(encode: Encoder, s: Business.Sys, id: string)
    requires Quiet(s) && id != "" && id !in s.db.payments
    ensures Execute(encode, s.db, s.now, "", CreatePayment(id, 1, "USD")).Ok?
    ensures Execute(encode, s.db, s.now, "", CreatePayment(id, 1, "USD")).value.1 == Ordered(id, 1)
  {
    var cmd := CreatePayment(id, 1, "USD");
    assert ValidCurrency("USD");
    CommandSucceeds(encode, s, cmd, Ordered(id, 1));
  }

  /** A creation in the ready runtime, and what is owed after it. */
  lemma CreationArrives(encode: Encoder, p: Policy, s: Sys, id: string, a: string, b: string)
    requires Constructed(p) && s.business == Ready(a, b) && a != "" && b != "" && id != ""
    ensures var t := Run(encode, p, s, Lifted(Drive(id, 1, [])));
            Quiet(t.business) && t.business.db.endpoints == {a, b} && t.business.db.payments.Keys == {id}
  {
    ReadyIsQuiet(a, b);
    DriveArrives(encode, s.business, id, 1, []);
    DriveIsAllowed({}, id, 1, []);
    LiftedRuns(encode, p, s, Drive(id, 1, []));
  }

  lemma ReadyIsQuiet(a: string, b: string)
    requires a != "" && b != ""
    ensures Quiet(Ready(a, b))
  {
  }

  lemma CreationIsOwed(encode: Encoder, p: Policy, s: Sys, id: string, a: string, b: string)
    requires Constructed(p) && s.business == Ready(a, b) && a != "" && b != "" && id != ""
    ensures Owes(Run(encode, p, s, Lifted(Drive(id, 1, []))), TaggedId(id, CREATED, 1), a)
  {
    ReadyIsQuiet(a, b);
    CreationExecutes(encode, s.business, id);
    PublishedIsOwed(encode, p, s, CreatePayment(id, 1, "USD"), a);
    OneStep(encode, p, s, Business.Do("", CreatePayment(id, 1, "USD")));
  }

  lemma OneStep(encode: Encoder, p: Policy, s: Sys, step: Business.Step)
    requires Constructed(p)
    ensures Run(encode, p, s, Lifted([step])) == Next(encode, p, s, Step.Business(step))
  {
    assert Lifted([step])[..0] == [];
    assert Run(encode, p, s, Lifted([step])) == Next(encode, p, Run(encode, p, s, []), Lifted([step])[0]);
  }

  /** An event of another payment takes over the job of a delivery that is owed. */
  lemma TakenOver(encode: Encoder, s: Sys, k: string, a: string, f: string, b: string)
    requires Owes(s, k, a) && DeliversTo(s.business.db, f) && b in s.business.db.endpoints
    requires DeliveryId(k, a) == DeliveryId(f, b) && k != f
    ensures !AllDelivered(encode, s)
  {
    assert s.business.db.jobs.rows[DeliveryId(f, b)].causationId == f;
    assert !HasDelivery(s.business.db.jobs.rows, encode, a, s.business.db.events[k]);
  }

  /** Two endpoints are registered, a payment is created, and another one is driven to a given event. */
  function Losing(a: string, b: string, paymentId: string, owner: string, total: Int64, ops: seq<Op>): seq<Step> {
    Lifted(Setup(a, b)) + Lifted(Drive(paymentId, 1, [])) + Lifted(Drive(owner, total, ops))
  }

  lemma LosingIsAllowed(endpoints: set<string>, a: string, b: string, paymentId: string, owner: string, total: Int64,
                        ops: seq<Op>)
    requires a in endpoints && b in endpoints
    ensures AllAllowed(endpoints, Losing(a, b, paymentId, owner, total, ops))
  {
    DriveIsAllowed(endpoints, paymentId, 1, []);
    DriveIsAllowed(endpoints, owner, total, ops);
    assert forall i :: 0 <= i < 3 ==> Allowed(endpoints, Lifted(Setup(a, b))[i]);
    AllowedAppend(endpoints, Lifted(Setup(a, b)), Lifted(Drive(paymentId, 1, [])));
    AllowedAppend(endpoints, Lifted(Setup(a, b)) + Lifted(Drive(paymentId, 1, [])), Lifted(Drive(owner, total, ops)));
  }

  lemma AllowedAppend(endpoints: set<string>, first: seq<Step>, second: seq<Step>)
    requires AllAllowed(endpoints, first) && AllAllowed(endpoints, second)
    ensures AllAllowed(endpoints, first + second)
  {
    forall i | 0 <= i < |first + second|
      ensures Allowed(endpoints, (first + second)[i])
    {
      if i < |first| {
        assert (first + second)[i] == first[i];
      } else {
        assert (first + second)[i] == second[i - |first|];
      }
    }
  }

  /** What the run leads to: the creation is owed, and the other payment's event has reached both endpoints. */
  ghost predicate Lost(t: Sys, k: string, a: string, b: string, f: string) {
    Owes(t, k, a) && t.business.db.endpoints == {a, b} && DeliversTo(t.business.db, f)
  }

  /** The second payment's event reaches both endpoints, while the first one's is still owed. */
  lemma OwnerArrives(encode: Encoder, p: Policy, s: Sys, k: string, a: string, b: string, owner: string, total: Int64,
                     ops: seq<Op>)
    requires Constructed(p) && Quiet(s.business) && s.business.db.endpoints == {a, b} &&
             owner !in s.business.db.payments
    requires owner != "" && 0 < total && Accepts(Ordered(owner, total), ops) && UnitMoves(ops) && |ops| + 1 < VERSIONS
    requires Owes(s, k, a)
    ensures Lost(Run(encode, p, s, Lifted(Drive(owner, total, ops))), k, a, b,
            TaggedId(owner, LastType(ops), |ops| + 1))
  {
    DriveIsAllowed({}, owner, total, ops);
    LiftedRuns(encode, p, s, Drive(owner, total, ops));
    DriveArrives(encode, s.business, owner, total, ops);
    StillOwes(encode, p, s, Lifted(Drive(owner, total, ops)), k, a);
  }

  lemma CreatedFirst(encode: Encoder, p: Policy, at: int, a: string, b: string, paymentId: string)
    requires Constructed(p) && a != "" && b != "" && paymentId != ""
    ensures var t := Run(encode, p, Run(encode, p, Start(at), Lifted(Setup(a, b))), Lifted(Drive(paymentId, 1, [])));
            && Quiet(t.business) && t.business.db.endpoints == {a, b} && t.business.db.payments.Keys == {paymentId}
            && Owes(t, TaggedId(paymentId, CREATED, 1), a)
  {
    SetupIsReady(encode, p, at, a, b);
    CreationArrives(encode, p, Run(encode, p, Start(at), Lifted(Setup(a, b))), paymentId, a, b);
    CreationIsOwed(encode, p, Run(encode, p, Start(at), Lifted(Setup(a, b))), paymentId, a, b);
  }

  /** What the run leads to: the creation is owed, and the other payment's event has reached both endpoints. */
  lemma LosingRuns(encode: Encoder, p: Policy, at: int, a: string, b: string, paymentId: string, owner: string,
                   total: Int64, ops: seq<Op>)
    requires Constructed(p) && a != "" && b != "" && paymentId != "" && owner != "" && owner != paymentId
    requires 0 < total && Accepts(Ordered(owner, total), ops) && UnitMoves(ops) && |ops| + 1 < VERSIONS
    ensures Lost(Run(encode, p, Start(at), Losing(a, b, paymentId, owner, total, ops)), TaggedId(paymentId, CREATED, 1),
            a, b,
                 TaggedId(owner, LastType(ops), |ops| + 1))
  {
    CreatedFirst(encode, p, at, a, b, paymentId);
    LosingGoesOn(encode, p, Start(at), Lifted(Setup(a, b)), Lifted(Drive(paymentId, 1, [])), paymentId, a, b, owner,
      total, ops);
  }

  lemma LosingGoesOn(encode: Encoder, p: Policy, s: Sys, setup: seq<Step>, first: seq<Step>, paymentId: string,
                     a: string, b: string, owner: string, total: Int64, ops: seq<Op>)
    requires Constructed(p) && owner != "" && owner != paymentId
    requires 0 < total && Accepts(Ordered(owner, total), ops) && UnitMoves(ops) && |ops| + 1 < VERSIONS
    requires var t := Run(encode, p, Run(encode, p, s, setup), first);
             && Quiet(t.business) && t.business.db.endpoints == {a, b} && t.business.db.payments.Keys == {paymentId}
             && Owes(t, TaggedId(paymentId, CREATED, 1), a)
    ensures Lost(Run(encode, p, s, setup + first + Lifted(Drive(owner, total, ops))), TaggedId(paymentId, CREATED, 1),
            a, b,
                 TaggedId(owner, LastType(ops), |ops| + 1))
  {
    var created := Run(encode, p, Run(encode, p, s, setup), first);
    OwnerArrives(encode, p, created, TaggedId(paymentId, CREATED, 1), a, b, owner, total, ops);
    ThreeParts(encode, p, s, setup, first, Lifted(Drive(owner, total, ops)));
  }

  lemma LosingIsAllowedAnywhere(a: string, b: string, paymentId: string, owner: string, total: Int64, ops: seq<Op>)
    ensures forall endpoints ::
              a in endpoints && b in endpoints ==> AllAllowed(endpoints, Losing(a, b, paymentId, owner, total, ops))
  {
    forall endpoints | a in endpoints && b in endpoints
      ensures AllAllowed(endpoints, Losing(a, b, paymentId, owner, total, ops))
    {
      LosingIsAllowed(endpoints, a, b, paymentId, owner, total, ops);
    }
  }

  /** Whatever two such endpoints are, some run loses a delivery to one of them. */
  lemma ExtendedEndpointLoses(encode: Encoder, p: Policy, at: int, a: string, b: string) returns (steps: seq<Step>)
    requires Constructed(p) && a != "" && b != "" && Extends(a, b)
    ensures forall endpoints :: a in endpoints && b in endpoints ==> AllAllowed(endpoints, steps)
    ensures !AllDelivered(encode, Run(encode, p, Start(at), steps))
  {
    var owner, eventType, version := ExtensionCollides("p", a, b);
    var total, ops := RouteTo(owner, eventType, version);
    steps := Losing(a, b, "p", owner, total, ops);
    LosingIsAllowedAnywhere(a, b, "p", owner, total, ops);
    LosingRuns(encode, p, at, a, b, "p", owner, total, ops);
    TaggedIdIsLonger("p", owner, eventType, version);
    TakenOver(encode, Run(encode, p, Start(at), steps), TaggedId("p", CREATED, 1), a,
      TaggedId(owner, eventType, version), b);
  }

  lemma ThreeParts(encode: Encoder, p: Policy, s: Sys, first: seq<Step>, second: seq<Step>, third: seq<Step>)
    requires Constructed(p)
    ensures Run(encode, p, s, first + second + third) ==
            Run(encode, p, Run(encode, p, Run(encode, p, s, first), second), third)
  {
    RunsAppend(encode, p, s, first + second, third);
    RunsAppend(encode, p, s, first, second);
  }

  lemma SetupIsReady(encode: Encoder, p: Policy, at: int, a: string, b: string)
    requires Constructed(p) && a != "" && b != ""
    ensures Run(encode, p, Start(at), Lifted(Setup(a, b))).business == Ready(a, b)
  {
    SetupRuns(encode, at, a, b);
    LiftedRuns(encode, p, Start(at), Setup(a, b));
  }

  lemma TaggedIdIsLonger(id: string, owner: string, eventType: string, version: nat)
    requires |owner| > |id| && Occurs(eventType, version)
    ensures TaggedId(id, CREATED, 1) != TaggedId(owner, eventType, version)
  {
    TypeHasNoColon(eventType);
    if TaggedId(id, CREATED, 1) == TaggedId(owner, eventType, version) {
      TaggedIdInjective(id, CREATED, 1, owner, eventType, version);
    }
  }

  /**
   In every run over a set of endpoints each event keeps its own deliveries exactly when no
   endpoint id is another one behind the type and version of an event that payments can
   have. This can be seen when an endpoint is registered.
   */
  lemma {:induction false} DeliveriesKeptIff(encode: Encoder, p: Policy, endpoints: set<string>, at: int)
    requires Constructed(p) && "" !in endpoints
    ensures (forall steps :: AllAllowed(endpoints, steps) ==> AllDelivered(encode, Run(encode, p, Start(at), steps)))
       <==> Separate(endpoints)
  {
    if Separate(endpoints) {
      forall steps | AllAllowed(endpoints, steps)
        ensures AllDelivered(encode, Run(encode, p, Start(at), steps))
      {
        EveryEventKeepsItsDeliveries(encode, p, endpoints, at, steps);
      }
    } else {
      var a, b :| a in endpoints && b in endpoints && a != b && Extends(a, b);
      var steps := ExtendedEndpointLoses(encode, p, at, a, b);
      assert AllAllowed(endpoints, steps);
    }
  }
}
