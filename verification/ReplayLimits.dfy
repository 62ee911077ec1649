/**
 How far a scenario may go before a payment of its result is no longer valid: the version
 that a payment starts from and the operations that its amount allows decide it.
 */
module ReplayLimits {
  import opened Outcomes
  import opened Ordering
  import opened Payments
  import opened Sagas
  import opened DeterministicProvider
  import opened Scenarios
  import opened Replay
  import opened ReplayTheorems
  import opened ReplayCurrencies
  import Comparison

  /** The version stays below 2^64 whatever is done to the payment. */
  predicate Fits(p: PaymentState) {
    p.version + MaxOps(p) < VERSIONS
  }

  /** No payment is created with an amount above a limit. */
  predicate CreatesUpTo(commands: seq<Command>, limit: int) {
    forall i :: 0 <= i < |commands| && commands[i].kind == CreatePayment ==> commands[i].amount.amount <= limit
  }

  /** A payment that the version limit cannot touch: it fits, or the provider refuses it for its currency. */
  predicate Safe(p: PaymentState) {
    Fits(p) || !ValidCurrency(p.amount.currency)
  }

  predicate AllValid(payments: seq<PaymentState>) {
    forall i :: 0 <= i < |payments| ==> Valid(payments[i])
  }

  /** A bound that can be checked before the replay: then every payment of the result is valid. */
  lemma FittingScenarioIsValid(registered: set<string>, s: Scenario)
    requires Replayed(registered, s).Ok?
    requires (forall p :: p in s.initialPayments ==> Safe(p)) && CreatesUpTo(s.commands, MAX_AMOUNT - 1)
    ensures AllValid(Replayed(registered, s).value.payments)
  {
    var payments, ledger := Replayed(registered, s).value.payments, Executed(s, |s.commands|).value.world.payments;
    ReplayResult(registered, s);
    ImproperStays(s, |s.commands|);
    ValidScenarioIff(s);
    forall i | 0 <= i < |payments|
      ensures Valid(payments[i])
    {
      assert ledger[SortedIds(ledger)[i]] == payments[i];
      if ValidCurrency(payments[i].amount.currency) {
        FittingOriginIsValid(s, payments[i]);
      }
    }
  }

  lemma FittingOriginIsValid(s: Scenario, payment: PaymentState)
    requires Grounded(s, |s.commands|, payment.id, payment) && ValidCurrency(payment.amount.currency)
    requires (forall p :: p in s.initialPayments ==> Safe(p)) && CreatesUpTo(s.commands, MAX_AMOUNT - 1)
    ensures Valid(payment)
  {
    var first :| Origin(s, |s.commands|, first) && first.id == payment.id && Valid(first) && Reachable(first, payment);
    var ops :| Accepts(first, ops) && Exec(first, ops) == payment;
    ExecKeepsIdentity(first, ops);
    assert Fits(first);
    BoundedStaysValid(first, ops);
  }

  // ----- A scenario that reaches the limit -----

  /** The direct command that carries out an operation. */
  function CommandFor(id: string, op: Op): Command {
    match op
    case Authorize => Command(AuthorizePayment, id, NO_MONEY, 0, "")
    case Capture(amount) => Command(CapturePayment, id, amount, 0, "")
    case Refund(amount) => Command(RefundPayment, id, amount, 0, "")
    case _ => Command(CancelPayment, id, NO_MONEY, 0, "")
  }

  function UnitCommands(p: PaymentState, n: nat): seq<Command> {
    seq(n, i requires 0 <= i < n => CommandFor(p.id, UnitOp(AfterUnits(p, i))))
  }

  /** Some commands, and `n` unit operations on a payment. */
  function UnitScenario(provider: string, payments: seq<PaymentState>, before: seq<Command>, p: PaymentState,
                        n: nat): Scenario {
    Scenario("limit", payments, before + UnitCommands(p, n), provider, "success", 1, 0)
  }

  /** Valid initial payments of distinct ids and 64-bit versions. */
  predicate ProperPayments(payments: seq<PaymentState>) {
    && (forall i :: 0 <= i < |payments| ==> Valid(payments[i]) && payments[i].version < VERSIONS)
    && (forall i, j :: 0 <= i < j < |payments| ==> payments[i].id != payments[j].id)
  }

  /** A payment that commands can drive. */
  predicate Drivable(p: PaymentState) {
    Valid(p) && ValidCurrency(p.amount.currency) && p.version < VERSIONS
  }

  lemma UnitCommandIsValid(p: PaymentState, id: string)
    requires id != "" && ValidCurrency(p.amount.currency)
    ensures ValidateCommand(CommandFor(id, UnitOp(p))) == None
  {
  }

  lemma UnitsKeepIdentity(p: PaymentState, n: nat)
    ensures AfterUnits(p, n).id == p.id && AfterUnits(p, n).amount == p.amount
  {
    UnitOpsRun(p, n);
    ExecKeepsIdentity(p, UnitOps(p, n));
  }

  lemma UnitCommandsAreValid(p: PaymentState, n: nat, limit: int)
    requires Drivable(p)
    ensures CommandsValid(UnitCommands(p, n)) && CreatesUpTo(UnitCommands(p, n), limit)
  {
    var commands := UnitCommands(p, n);
    forall i | 0 <= i < |commands|
      ensures ValidateCommand(commands[i]) == None && commands[i].kind != CreatePayment
    {
      UnitsKeepIdentity(p, i);
      UnitCommandIsValid(AfterUnits(p, i), p.id);
    }
  }

  lemma UnitScenarioIsValid(provider: string, payments: seq<PaymentState>, before: seq<Command>, p: PaymentState,
                            n: nat, limit: int)
    requires provider != "" && ProperPayments(payments) && CommandsValid(before) && CreatesUpTo(before, limit) &&
             Drivable(p)
    ensures ScenarioFault(UnitScenario(provider, payments, before, p, n)) == None
    ensures CreatesUpTo(UnitScenario(provider, payments, before, p, n).commands, limit)
  {
    UnitCommandsAreValid(p, n, limit);
    ValidScenarioIff(UnitScenario(provider, payments, before, p, n));
  }

  /** The provider approves a unit operation on any payment that it accepts as a snapshot. */
  lemma UnitIsApproved(provider: string, w: World, id: string, t: PaymentState, after: PaymentState)
    requires id in w.payments && w.payments[id] == t && t.id == id && ValidUpToVersion(t) && t.version != 0
    requires ValidCurrency(t.amount.currency) && UnitStep(t, after)
    ensures AfterDirect(Configure(provider, "success", 0), w, CommandFor(id, UnitOp(t))) ==
            (Some(w.(payments := w.payments[id := after])), [])
  {
    assert ValidSnapshot(t);
  }

  /** The world after `n` unit operations. */
  function UnitWorld(ledger: Ledger, p: PaymentState, n: nat): World {
    World(ledger[p.id := AfterUnits(p, n)], map[], map[], 1)
  }

  lemma UnitWorldStep(provider: string, ledger: Ledger, p: PaymentState, n: nat)
    requires Drivable(p) && n < MaxOps(p) && p.version + n < VERSIONS
    ensures AfterDirect(Configure(provider, "success", 0), UnitWorld(ledger, p, n),
            CommandFor(p.id, UnitOp(AfterUnits(p, n)))) ==
            (Some(UnitWorld(ledger, p, n + 1)), [])
  {
    var t, w := AfterUnits(p, n), UnitWorld(ledger, p, n);
    UnitsAreAccepted(p, n);
    OneUnitLess(p, n, t);
    UnitsKeepIdentity(p, n);
    UnitIsApproved(provider, w, p.id, t, AfterUnits(p, n + 1));
    assert w.payments[p.id := AfterUnits(p, n + 1)] == UnitWorld(ledger, p, n + 1).payments;
  }

  lemma CommandForIsDirect(p: Provider, w: World, id: string, op: Op)
    ensures AfterCommand(p, w, CommandFor(id, op)) == AfterDirect(p, w, CommandFor(id, op))
  {
  }

  lemma ExecutedNext(s: Scenario, n: nat, before: World, after: World)
    requires n < |s.commands| && Executed(s, n) == Ok(Outcome(before, []))
    requires AfterCommand(ProviderOf(s), before, s.commands[n]) == (Some(after), [])
    ensures Executed(s, n + 1) == Ok(Outcome(after, []))
  {
    var none: seq<AsyncOperation> := [];
    assert none + none == none;
  }

  /** After some commands the execution has reached the world of `n` unit operations. */
  ghost predicate Reaches(s: Scenario, before: nat, ledger: Ledger, p: PaymentState, n: nat) {
    before + n <= |s.commands| && Executed(s, before + n) == Ok(Outcome(UnitWorld(ledger, p, n), []))
  }

  predicate IsUnit(s: Scenario, provider: string, before: nat, p: PaymentState, n: nat) {
    && ProviderOf(s) == Configure(provider, "success", 0)
    && before + n < |s.commands| && s.commands[before + n] == CommandFor(p.id, UnitOp(AfterUnits(p, n)))
  }

  /** After some commands, a scenario goes on with the unit operations on a payment. */
  predicate GoesOn(s: Scenario, provider: string, before: nat, p: PaymentState, total: nat) {
    |s.commands| == before + total && forall n :: 0 <= n < total ==> IsUnit(s, provider, before, p, n)
  }

  lemma UnitScenarioGoesOn(provider: string, payments: seq<PaymentState>, before: seq<Command>, p: PaymentState,
                           total: nat)
    ensures GoesOn(UnitScenario(provider, payments, before, p, total), provider, |before|, p, total)
  {
    var s := UnitScenario(provider, payments, before, p, total);
    forall n | 0 <= n < total
      ensures IsUnit(s, provider, |before|, p, n)
    {
      assert s.commands[|before| + n] == UnitCommands(p, total)[n];
    }
  }

  lemma UnitCommandLeads(provider: string, ledger: Ledger, p: PaymentState, n: nat)
    requires Drivable(p) && n < MaxOps(p) && p.version + n < VERSIONS
    ensures AfterCommand(Configure(provider, "success", 0), UnitWorld(ledger, p, n),
            CommandFor(p.id, UnitOp(AfterUnits(p, n)))) ==
            (Some(UnitWorld(ledger, p, n + 1)), [])
  {
    UnitWorldStep(provider, ledger, p, n);
    CommandForIsDirect(Configure(provider, "success", 0), UnitWorld(ledger, p, n), p.id, UnitOp(AfterUnits(p, n)));
  }

  lemma ReachesNext(s: Scenario, before: nat, ledger: Ledger, p: PaymentState, n: nat, c: Command)
    requires before + n < |s.commands| && s.commands[before + n] == c && Reaches(s, before, ledger, p, n)
    requires AfterCommand(ProviderOf(s), UnitWorld(ledger, p, n), c) == (Some(UnitWorld(ledger, p, n + 1)), [])
    ensures Reaches(s, before, ledger, p, n + 1)
  {
    ExecutedNext(s, before + n, UnitWorld(ledger, p, n), UnitWorld(ledger, p, n + 1));
  }

  lemma ReachesStep(s: Scenario, provider: string, before: nat, ledger: Ledger, p: PaymentState, n: nat)
    requires IsUnit(s, provider, before, p, n)
    requires Drivable(p) && n < MaxOps(p) && p.version + n < VERSIONS
    requires Reaches(s, before, ledger, p, n)
    ensures Reaches(s, before, ledger, p, n + 1)
  {
    UnitCommandLeads(provider, ledger, p, n);
    ReachesNext(s, before, ledger, p, n, s.commands[before + n]);
  }

  lemma GoesOnStep(s: Scenario, provider: string, before: nat, ledger: Ledger, p: PaymentState, total: nat, n: nat)
    requires GoesOn(s, provider, before, p, total)
    requires Drivable(p) && n < total <= MaxOps(p) && p.version + total <= VERSIONS
    requires Reaches(s, before, ledger, p, n)
    ensures Reaches(s, before, ledger, p, n + 1)
  {
    assert IsUnit(s, provider, before, p, n);
    ReachesStep(s, provider, before, ledger, p, n);
  }

  ghost predicate Carries(reached: nat -> bool, n: nat) {
    reached(n) ==> reached(n + 1)
  }

  lemma {:induction false} CountUp(reached: nat -> bool, n: nat)
    requires reached(0) && forall k: nat :: k < n ==> Carries(reached, k)
    ensures reached(n)
  {
    if n > 0 {
      CountUp(reached, n - 1);
      assert Carries(reached, n - 1);
    }
  }

  lemma ReachesAll(s: Scenario, provider: string, before: nat, ledger: Ledger, p: PaymentState, total: nat)
    requires GoesOn(s, provider, before, p, total)
    requires Drivable(p) && total <= MaxOps(p) && p.version + total <= VERSIONS
    requires Reaches(s, before, ledger, p, 0)
    ensures Reaches(s, before, ledger, p, total)
  {
    var reached := (k: nat) => Reaches(s, before, ledger, p, k);
    forall k: nat | k < total
      ensures Carries(reached, k)
    {
      if reached(k) {
        GoesOnStep(s, provider, before, ledger, p, total, k);
      }
    }
    CountUp(reached, total);
  }

  lemma StartOfExecution(s: Scenario)
    ensures Executed(s, 0) ==
            Ok(Outcome(World(InitialLedger(s.initialPayments), map[], map[], s.initialVirtualTime), []))
  {
  }

  lemma ListsTheInvalid(payments: Ledger, id: string)
    requires id in payments && !Valid(payments[id])
    ensures !AllValid(States(payments))
  {
    var ids := SortedIds(payments);
    LexIsTotalOrder();
    EachOnce(ids, payments.Keys);
    var i :| 0 <= i < |ids| && ids[i] == id;
    assert States(payments)[i] == payments[id];
  }

  /** A replay that ends with an invalid payment. */
  ghost predicate Fails(registered: set<string>, s: Scenario) {
    Replayed(registered, s).Ok? && !AllValid(Replayed(registered, s).value.payments)
  }

  lemma DrivenToZeroFails(registered: set<string>, provider: string, payments: seq<PaymentState>,
                          before: seq<Command>, ledger: Ledger, p: PaymentState, limit: int)
    requires provider in registered && provider != "" && ProperPayments(payments) && Drivable(p) && !Fits(p)
    requires CommandsValid(before) && CreatesUpTo(before, limit)
    requires Reaches(UnitScenario(provider, payments, before, p, VERSIONS - p.version), |before|, ledger, p, 0)
    ensures var s := UnitScenario(provider, payments, before, p, VERSIONS - p.version);
            Fails(registered, s) && CreatesUpTo(s.commands, limit)
  {
    var n := VERSIONS - p.version;
    var s := UnitScenario(provider, payments, before, p, n);
    UnitScenarioIsValid(provider, payments, before, p, n, limit);
    UnitScenarioGoesOn(provider, payments, before, p, n);
    ReachesAll(s, provider, |before|, ledger, p, n);
    UnitsWrap(p);
    UnitOpsRun(p, n);
    EndsInvalid(registered, s, |before|, ledger, p, n);
  }

  lemma EndsInvalid(registered: set<string>, s: Scenario, before: nat, ledger: Ledger, p: PaymentState, n: nat)
    requires ScenarioFault(s) == None && s.providerId in registered && |s.commands| == before + n
    requires Reaches(s, before, ledger, p, n) && AfterUnits(p, n).version == 0
    ensures Fails(registered, s)
  {
    ListsTheInvalid(UnitWorld(ledger, p, n).payments, p.id);
  }

  /** An initial payment that does not fit is driven to version zero by direct commands on it alone. */
  lemma InitialLimitIsReached(registered: set<string>, provider: string, payments: seq<PaymentState>, p: PaymentState,
                              limit: int)
    requires provider in registered && provider != "" && ProperPayments(payments) && p in payments && !Safe(p)
    ensures var s := UnitScenario(provider, payments, [], p, VERSIONS - p.version);
            Fails(registered, s) && CreatesUpTo(s.commands, limit)
  {
    var i :| 0 <= i < |payments| && payments[i] == p;
    var s := UnitScenario(provider, payments, [], p, VERSIONS - p.version);
    Comparison.IndexHolds(payments, p.id);
    assert InitialLedger(payments)[p.id := p] == InitialLedger(payments);
    StartOfExecution(s);
    DrivenToZeroFails(registered, provider, payments, [], InitialLedger(payments), p, limit);
  }

  /** An id longer than all others. */
  function FreshId(payments: seq<PaymentState>): string {
    if payments == [] then "x" else payments[|payments| - 1].id + FreshId(payments[..|payments| - 1])
  }

  lemma {:induction false} FreshIdIsLonger(payments: seq<PaymentState>)
    ensures FreshId(payments) != "" && forall i :: 0 <= i < |payments| ==> |payments[i].id| < |FreshId(payments)|
  {
    if payments != [] {
      FreshIdIsLonger(payments[..|payments| - 1]);
    }
  }

  function LargestPayment(id: string): PaymentState {
    PaymentState(id, Money(MAX_AMOUNT, "USD"), Status.Pending, 0, 0, 0, 1)
  }

  function LargestCreation(id: string): seq<Command> {
    [Command(CreatePayment, id, Money(MAX_AMOUNT, "USD"), 0, "")]
  }

  lemma CreationExecutes(s: Scenario, id: string)
    requires ProperPayments(s.initialPayments) && id == FreshId(s.initialPayments) && s.initialVirtualTime == 1
    requires |s.commands| > 0 && s.commands[0] == LargestCreation(id)[0]
    ensures Reaches(s, 1, InitialLedger(s.initialPayments), LargestPayment(id), 0)
  {
    var ledger, p := InitialLedger(s.initialPayments), LargestPayment(id);
    FreshIdIsLonger(s.initialPayments);
    Comparison.IndexHolds(s.initialPayments, id);
    assert ValidCurrency("USD");
    StartOfExecution(s);
    var start := World(ledger, map[], map[], 1);
    assert AfterCommand(ProviderOf(s), start, s.commands[0]) == (Some(UnitWorld(ledger, p, 0)), []);
    ExecutedNext(s, 0, start, UnitWorld(ledger, p, 0));
  }

  /** A payment that is created at the largest amount can be driven to version zero too. */
  lemma CreationLimitIsReached(registered: set<string>, provider: string, payments: seq<PaymentState>, limit: int)
    requires provider in registered && provider != "" && ProperPayments(payments) && limit >= MAX_AMOUNT
    ensures var (id, p) := (FreshId(payments), LargestPayment(FreshId(payments)));
            var s := UnitScenario(provider, payments, LargestCreation(id), p, VERSIONS - p.version);
            Fails(registered, s) && CreatesUpTo(s.commands, limit)
  {
    var id := FreshId(payments);
    var p := LargestPayment(id);
    FreshIdIsLonger(payments);
    assert ValidCurrency("USD");
    CreationExecutes(UnitScenario(provider, payments, LargestCreation(id), p, VERSIONS - p.version), id);
    DrivenToZeroFails(registered, provider, payments, LargestCreation(id), InitialLedger(payments), p, limit);
  }

  /** Every replay that starts from these payments and creates others up to a limit ends with valid payments. */
  ghost predicate AlwaysReplaysValid(registered: set<string>, payments: seq<PaymentState>, limit: int) {
    forall s: Scenario :: s.initialPayments == payments && CreatesUpTo(s.commands, limit) ==> !Fails(registered, s)
  }

  /**
   Whatever its commands, provider profile and seed, every replay from some initial
   payments ends with valid payments exactly when, for each of them with a proper currency,
   the version and the operations that it can still accept stay below 2^64, and no payment
   is created at the largest amount.
   */
  lemma {:induction false} ReplaysValidIff(registered: set<string>, provider: string, payments: seq<PaymentState>,
                                           limit: int)
    requires provider in registered && provider != "" && ProperPayments(payments)
    ensures AlwaysReplaysValid(registered, payments, limit) <==>
            (forall i :: 0 <= i < |payments| ==> Safe(payments[i])) && limit < MAX_AMOUNT
  {
    if (forall i :: 0 <= i < |payments| ==> Safe(payments[i])) && limit < MAX_AMOUNT {
      forall s: Scenario | s.initialPayments == payments && CreatesUpTo(s.commands, limit) &&
        Replayed(registered, s).Ok?
        ensures AllValid(Replayed(registered, s).value.payments)
      {
        FittingScenarioIsValid(registered, s);
      }
    } else if limit >= MAX_AMOUNT {
      CreationLimitIsReached(registered, provider, payments, limit);
    } else {
      var i :| 0 <= i < |payments| && !Safe(payments[i]);
      InitialLimitIsReached(registered, provider, payments, payments[i], limit);
    }
  }
}
