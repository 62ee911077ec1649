/**
 The payment aggregate of internal/payment/domain: its states, its transitions as
 functions, and the mutable object that carries them out.
 */
module Payments {
  import opened Outcomes

  const MAX_AMOUNT := 0x7FFF_FFFF_FFFF_FFFF
  const VERSIONS := 0x1_0000_0000_0000_0000

  // Amounts in requests are 64-bit integers.
  type Int64 = n: int | -MAX_AMOUNT - 1 <= n <= MAX_AMOUNT

  datatype Status =
    | Pending
    | Authorized
    | PartiallyCaptured
    | Captured
    | PartiallyRefunded
    | Refunded
    | Failed
    | Cancelled

  datatype Money = Money(amount: int, currency: string)

  datatype PaymentState = PaymentState(
    id: string,
    amount: Money,
    status: Status,
    authorized: int,
    captured: int,
    refunded: int,
    version: nat)

  datatype PaymentError =
    | InvalidPaymentId
    | InvalidPaymentVersion
    | InvalidMoneyAmount
    | InvalidCurrency
    | InvalidTransition
    | InvalidAuthorizedAmount
    | InvalidCapturedAmount
    | InvalidRefundedAmount
    | InvalidPaymentState

  predicate ValidCurrency(currency: string) {
    |currency| == 3 && forall i :: 0 <= i < 3 ==> 'A' <= currency[i] <= 'Z'
  }

  function NewMoney(amount: int, currency: string): Result<Money, PaymentError> {
    if amount < 0 then Err(InvalidMoneyAmount)
    else if !ValidCurrency(currency) then Err(InvalidCurrency)
    else Ok(Money(amount, currency))
  }

  /** The checks of a restored state, in the order in which they report. */
  function Validate(s: PaymentState): Option<PaymentError> {
    if s.id == "" then Some(InvalidPaymentId)
    else if s.version == 0 then Some(InvalidPaymentVersion)
    else if s.amount.amount <= 0 then Some(InvalidMoneyAmount)
    else if s.authorized < 0 || s.authorized > s.amount.amount then Some(InvalidAuthorizedAmount)
    else if s.captured < 0 || s.captured > s.authorized then Some(InvalidCapturedAmount)
    else if s.refunded < 0 || s.refunded > s.captured then Some(InvalidRefundedAmount)
    else if !LifecycleConsistent(s) then Some(InvalidPaymentState)
    else None
  }

  predicate LifecycleConsistent(s: PaymentState) {
    match s.status
    case Pending => s.authorized == 0 && s.captured == 0 && s.refunded == 0
    case Failed => s.authorized == 0 && s.captured == 0 && s.refunded == 0
    case Authorized => s.authorized == s.amount.amount && s.captured == 0 && s.refunded == 0
    case PartiallyCaptured => s.authorized == s.amount.amount && 0 < s.captured < s.authorized && s.refunded == 0
    case Captured => s.authorized == s.amount.amount && s.captured == s.authorized && s.refunded == 0
    case PartiallyRefunded =>
      s.authorized == s.amount.amount && s.captured == s.authorized && 0 < s.refunded < s.captured
    case Refunded => s.authorized == s.amount.amount && s.captured == s.authorized && s.refunded == s.captured
    case Cancelled => s.authorized == s.amount.amount && s.captured == 0 && s.refunded == 0
  }

  predicate Valid(s: PaymentState) {
    Validate(s) == None
  }

  predicate TerminalStatus(status: Status) {
    status == Failed || status == Cancelled || status == Refunded
  }

  function New(id: string, amount: Money): Result<PaymentState, PaymentError> {
    if id == "" then Err(InvalidPaymentId)
    else if amount.amount <= 0 then Err(InvalidMoneyAmount)
    else Ok(PaymentState(id, amount, Pending, 0, 0, 0, 1))
  }

  datatype Op = Authorize | Fail | Cancel | Capture(amount: Money) | Refund(amount: Money)

  /** Versions are 64-bit and wrap around. */
  function Bumped(s: PaymentState): PaymentState {
    s.(version := (s.version + 1) % VERSIONS)
  }

  /** The effect of one transition, or the error with which it is refused. */
  function Apply(s: PaymentState, op: Op): Result<PaymentState, PaymentError> {
    match op
    case Authorize =>
      if s.status != Pending then Err(InvalidTransition)
      else Ok(Bumped(s.(authorized := s.amount.amount, status := Authorized)))
    case Fail =>
      if s.status != Pending then Err(InvalidTransition)
      else Ok(Bumped(s.(status := Failed)))
    case Cancel =>
      if s.status != Authorized then Err(InvalidTransition)
      else Ok(Bumped(s.(status := Cancelled)))
    case Capture(amount) =>
      if s.status != Authorized && s.status != PartiallyCaptured then Err(InvalidTransition)
      else if amount.currency != s.amount.currency then Err(InvalidCurrency)
      else if amount.amount <= 0 || amount.amount > s.authorized - s.captured then Err(InvalidCapturedAmount)
      else
        var captured := s.captured + amount.amount;
        Ok(Bumped(s.(captured := captured, status := if captured == s.authorized then Captured else PartiallyCaptured)))
    case Refund(amount) =>
      if s.status != Captured && s.status != PartiallyRefunded then Err(InvalidTransition)
      else if amount.currency != s.amount.currency then Err(InvalidCurrency)
      else if amount.amount <= 0 || amount.amount > s.captured - s.refunded then Err(InvalidRefundedAmount)
      else
        var refunded := s.refunded + amount.amount;
        Ok(Bumped(s.(refunded := refunded, status := if refunded == s.captured then Refunded else PartiallyRefunded)))
  }

  predicate Outcome(r: Result<PaymentState, PaymentError>, before: PaymentState, after: PaymentState,
                    err: Option<PaymentError>) {
    match r
    case Ok(s) => after == s && err == None
    case Err(e) => after == before && err == Some(e)
  }

  class Payment {
    const id: string
    const amount: Money
    var status: Status
    var authorized: int
    var captured: int
    var refunded: int
    var version: nat

    constructor Restore(s: PaymentState)
      requires Valid(s)
      ensures State() == s
    {
      id, amount, status := s.id, s.amount, s.status;
      authorized, captured, refunded, version := s.authorized, s.captured, s.refunded, s.version;
    }

    function State(): PaymentState
      reads this
    {
      PaymentState(id, amount, status, authorized, captured, refunded, version)
    }

    method Authorize() returns (err: Option<PaymentError>)
      modifies this
      ensures Outcome(Apply(old(State()), Op.Authorize), old(State()), State(), err)
    {
      if status != Pending {
        return Some(InvalidTransition);
      }
      authorized := amount.amount;
      status := Authorized;
      Bump();
      return None;
    }

    method Fail() returns (err: Option<PaymentError>)
      modifies this
      ensures Outcome(Apply(old(State()), Op.Fail), old(State()), State(), err)
    {
      if status != Pending {
        return Some(InvalidTransition);
      }
      status := Failed;
      Bump();
      return None;
    }

    method Cancel() returns (err: Option<PaymentError>)
      modifies this
      ensures Outcome(Apply(old(State()), Op.Cancel), old(State()), State(), err)
    {
      if status != Authorized {
        return Some(InvalidTransition);
      }
      status := Cancelled;
      Bump();
      return None;
    }

    method Capture(money: Money) returns (err: Option<PaymentError>)
      modifies this
      ensures Outcome(Apply(old(State()), Op.Capture(money)), old(State()), State(), err)
    {
      if status != Authorized && status != PartiallyCaptured {
        return Some(InvalidTransition);
      }
      if money.currency != amount.currency {
        return Some(InvalidCurrency);
      }
      if money.amount <= 0 {
        return Some(InvalidCapturedAmount);
      }
      var remaining := authorized - captured;
      if money.amount > remaining {
        return Some(InvalidCapturedAmount);
      }
      captured := captured + money.amount;
      if captured == authorized {
        status := Captured;
      } else {
        status := PartiallyCaptured;
      }
      Bump();
      return None;
    }

    method Refund(money: Money) returns (err: Option<PaymentError>)
      modifies this
      ensures Outcome(Apply(old(State()), Op.Refund(money)), old(State()), State(), err)
    {
      if status != Captured && status != PartiallyRefunded {
        return Some(InvalidTransition);
      }
      if money.currency != amount.currency {
        return Some(InvalidCurrency);
      }
      if money.amount <= 0 {
        return Some(InvalidRefundedAmount);
      }
      var remaining := captured - refunded;
      if money.amount > remaining {
        return Some(InvalidRefundedAmount);
      }
      refunded := refunded + money.amount;
      if refunded == captured {
        status := Refunded;
      } else {
        status := PartiallyRefunded;
      }
      Bump();
      return None;
    }

    /** The method of an operation. */
    method Perform(op: Op) returns (err: Option<PaymentError>)
      modifies this
      ensures Outcome(Apply(old(State()), op), old(State()), State(), err)
    {
      match op
      case Authorize => err := Authorize();
      case Fail => err := Fail();
      case Cancel => err := Cancel();
      case Capture(money) => err := Capture(money);
      case Refund(money) => err := Refund(money);
    }

    method Bump()
      modifies this`version
      ensures version == (old(version) + 1) % VERSIONS
    {
      version := (version + 1) % VERSIONS;
    }
  }

  // ----- Single transitions -----

  /** A transition of a valid payment leads to a valid payment exactly when its version does not wrap around. */
  lemma TransitionKeepsValid(s: PaymentState, op: Op)
    requires Valid(s) && Apply(s, op).Ok?
    ensures Valid(Apply(s, op).value) <==> (s.version + 1) % VERSIONS != 0
  {
  }

  /** A valid payment accepts no further operation exactly when its status is terminal. */
  lemma TerminalIffNothingApplies(s: PaymentState)
    requires Valid(s)
    ensures TerminalStatus(s.status) <==> forall op :: Apply(s, op).Err?
  {
    if !TerminalStatus(s.status) {
      var money := Money(1, s.amount.currency);
      assert Apply(s, Authorize).Ok? || Apply(s, Capture(money)).Ok? || Apply(s, Refund(money)).Ok?;
    }
  }

  lemma VersionMoves(s: PaymentState, op: Op)
    requires Apply(s, op).Ok?
    ensures var t := Apply(s, op).value;
            t.version <= s.version + 1 && t.id == s.id && t.amount == s.amount &&
              (s.version + 1 < VERSIONS ==> t.version == s.version + 1)
  {
  }

  // ----- Operation sequences -----

  /** The payment after a sequence of operations; a refused operation changes nothing. */
  function Exec(s: PaymentState, ops: seq<Op>): PaymentState {
    if ops == [] then s
    else
      var before := Exec(s, ops[..|ops| - 1]);
      match Apply(before, ops[|ops| - 1])
      case Ok(after) => after
      case Err(_) => before
  }

  lemma ExecSnoc(s: PaymentState, ops: seq<Op>, op: Op)
    ensures Exec(s, ops + [op]) == if Apply(Exec(s, ops), op).Ok? then Apply(Exec(s, ops), op).value else Exec(s, ops)
  {
    assert (ops + [op])[..|ops|] == ops;
  }

  lemma {:induction false} ExecAppend(s: PaymentState, first: seq<Op>, second: seq<Op>)
    ensures Exec(s, first + second) == Exec(Exec(s, first), second)
  {
    if second == [] {
      assert first + second == first;
    } else {
      var all, init := first + second, second[..|second| - 1];
      ExecAppend(s, first, init);
      assert all[..|all| - 1] == first + init;
      assert all[|all| - 1] == second[|second| - 1];
    }
  }

  lemma {:induction false} ExecKeepsIdentity(s: PaymentState, ops: seq<Op>)
    ensures Exec(s, ops).id == s.id && Exec(s, ops).amount == s.amount
  {
    if ops != [] {
      ExecKeepsIdentity(s, ops[..|ops| - 1]);
    }
  }

  /** The sums of accepted captures and refunds, and the number of accepted operations. */
  datatype Tally = Tally(captures: int, refunds: int, count: nat)

  function Add(tally: Tally, op: Op): Tally {
    Tally(tally.captures + (if op.Capture? then op.amount.amount else 0),
          tally.refunds + (if op.Refund? then op.amount.amount else 0),
          tally.count + 1)
  }

  function Accepted(s: PaymentState, ops: seq<Op>): Tally {
    if ops == [] then Tally(0, 0, 0)
    else
      var init, op := ops[..|ops| - 1], ops[|ops| - 1];
      if Apply(Exec(s, init), op).Ok? then Add(Accepted(s, init), op) else Accepted(s, init)
  }

  predicate ValidUpToVersion(s: PaymentState) {
    Valid(s.(version := 1))
  }

  predicate CountFits(s: PaymentState, count: nat) {
    match s.status
    case Pending => count == 0
    case Failed => count == 1
    case Authorized => count == 1
    case Cancelled => count == 2
    case _ => 2 <= count <= 1 + s.captured + s.refunded
  }

  lemma WrapStep(n: nat)
    ensures (n % VERSIONS + 1) % VERSIONS == (n + 1) % VERSIONS
  {
  }

  /** Captured and refunded are what the accepted operations add up to, and their number bounds the version. */
  predicate Conserved(id: string, amount: Money, s: PaymentState, tally: Tally) {
    match tally
    case Tally(captures, refunds, count) =>
      && s.id == id && s.amount == amount && ValidUpToVersion(s)
      && s.captured == captures && s.refunded == refunds
      && s.version == (1 + count) % VERSIONS
      && CountFits(s, count)
  }

  lemma StepConserves(id: string, amount: Money, s: PaymentState, tally: Tally, op: Op)
    requires Conserved(id, amount, s, tally) && Apply(s, op).Ok?
    ensures Conserved(id, amount, Apply(s, op).value, Add(tally, op))
  {
    WrapStep(1 + tally.count);
  }

  lemma {:induction false} Conservation(id: string, amount: Money, ops: seq<Op>)
    requires New(id, amount).Ok?
    ensures Conserved(id, amount, Exec(New(id, amount).value, ops), Accepted(New(id, amount).value, ops))
  {
    if ops != [] {
      var init, s := ops[..|ops| - 1], New(id, amount).value;
      Conservation(id, amount, init);
      if Apply(Exec(s, init), ops[|ops| - 1]).Ok? {
        StepConserves(id, amount, Exec(s, init), Accepted(s, init), ops[|ops| - 1]);
      }
    }
  }

  /** The version of a payment is at most 2 + captured + refunded, or 3 if it was cancelled. */
  lemma VersionBound(id: string, amount: Money, ops: seq<Op>)
    requires New(id, amount).Ok?
    ensures var s := Exec(New(id, amount).value, ops);
            s.version <= if s.status == Cancelled then 3 else 2 + s.captured + s.refunded
  {
    Conservation(id, amount, ops);
  }

  /** Each operation is accepted in the state that the ones before it left. */
  predicate Accepts(p: PaymentState, ops: seq<Op>) {
    ops == [] || (Accepts(p, ops[..|ops| - 1]) && Apply(Exec(p, ops[..|ops| - 1]), ops[|ops| - 1]).Ok?)
  }

  lemma AcceptsSnoc(p: PaymentState, ops: seq<Op>, op: Op)
    ensures Accepts(p, ops + [op]) <==> Accepts(p, ops) && Apply(Exec(p, ops), op).Ok?
  {
    assert (ops + [op])[..|ops|] == ops;
  }

  lemma {:induction false} AcceptedKeepsShape(p: PaymentState, ops: seq<Op>)
    requires ValidUpToVersion(p) && Accepts(p, ops)
    ensures ValidUpToVersion(Exec(p, ops)) && Exec(p, ops).id == p.id && Exec(p, ops).amount == p.amount
    ensures ops != [] ==> Exec(p, ops).version == (p.version + |ops|) % VERSIONS
  {
    if ops != [] {
      AcceptedKeepsShape(p, ops[..|ops| - 1]);
      WrapStep(p.version + |ops| - 1);
    }
  }

  // ----- How long a payment stays valid -----

  /** The largest number of further operations that a payment can accept. */
  function MaxOps(s: PaymentState): int {
    match s.status
    case Pending => 1 + 2 * s.amount.amount
    case Authorized => 2 * s.amount.amount
    case PartiallyCaptured => (s.authorized - s.captured) + s.authorized
    case Captured => s.captured
    case PartiallyRefunded => s.captured - s.refunded
    case _ => 0
  }

  /** An operation that leaves as many more as possible: authorise, or move one unit. */
  function UnitOp(s: PaymentState): Op {
    match s.status
    case Pending => Authorize
    case Authorized => Capture(Money(1, s.amount.currency))
    case PartiallyCaptured => Capture(Money(1, s.amount.currency))
    case _ => Refund(Money(1, s.amount.currency))
  }

  lemma AcceptedUsesOne(s: PaymentState, op: Op)
    requires ValidUpToVersion(s) && Apply(s, op).Ok?
    ensures var t := Apply(s, op).value;
            && ValidUpToVersion(t) && t.version == (s.version + 1) % VERSIONS
            && 0 <= MaxOps(t) < MaxOps(s)
  {
  }

  lemma UnitUsesOne(s: PaymentState)
    requires ValidUpToVersion(s) && 0 < MaxOps(s)
    ensures Apply(s, UnitOp(s)).Ok? && MaxOps(Apply(s, UnitOp(s)).value) == MaxOps(s) - 1
  {
  }

  /** Every accepted operation adds one to the version and uses up at least one of those that are left. */
  lemma {:induction false} OperationsAreBounded(s: PaymentState, ops: seq<Op>)
    requires ValidUpToVersion(s) && s.version < VERSIONS
    ensures var (t, count) := (Exec(s, ops), Accepted(s, ops).count);
            && ValidUpToVersion(t) && t.version == (s.version + count) % VERSIONS
            && 0 <= MaxOps(t) && count + MaxOps(t) <= MaxOps(s)
  {
    if ops != [] {
      var init, op := ops[..|ops| - 1], ops[|ops| - 1];
      OperationsAreBounded(s, init);
      if Apply(Exec(s, init), op).Ok? {
        AcceptedUsesOne(Exec(s, init), op);
        WrapStep(s.version + Accepted(s, init).count);
      }
    }
  }

  /** The payment after as many unit operations. */
  function AfterUnits(s: PaymentState, n: nat): PaymentState {
    if n == 0 then s
    else
      var before := AfterUnits(s, n - 1);
      match Apply(before, UnitOp(before))
      case Ok(after) => after
      case Err(_) => before
  }

  function UnitOps(s: PaymentState, n: nat): seq<Op> {
    if n == 0 then [] else UnitOps(s, n - 1) + [UnitOp(AfterUnits(s, n - 1))]
  }

  lemma {:induction false} UnitOpsRun(s: PaymentState, n: nat)
    ensures Exec(s, UnitOps(s, n)) == AfterUnits(s, n)
  {
    if n > 0 {
      var ops, before := UnitOps(s, n - 1), AfterUnits(s, n - 1);
      UnitOpsRun(s, n - 1);
      assert Exec(s, ops) == before;
      ExecSnoc(s, ops, UnitOp(before));
      assert UnitOps(s, n) == ops + [UnitOp(before)];
    }
  }

  /** What one more unit operation makes of a payment that can still accept one. */
  predicate UnitStep(before: PaymentState, after: PaymentState) {
    Apply(before, UnitOp(before)) == Ok(after)
  }

  lemma UnitStepCounts(t: PaymentState)
    requires ValidUpToVersion(t) && 0 < MaxOps(t)
    ensures var op := UnitOp(t);
            && Apply(t, op).Ok? && ValidUpToVersion(Apply(t, op).value)
            && Apply(t, op).value.version == (t.version + 1) % VERSIONS && MaxOps(Apply(t, op).value) == MaxOps(t) - 1
  {
    UnitUsesOne(t);
    AcceptedUsesOne(t, UnitOp(t));
  }

  predicate UnitsLeft(s: PaymentState, n: nat, t: PaymentState) {
    && ValidUpToVersion(t) && MaxOps(t) == MaxOps(s) - n
    && t.version == if s.version + n == VERSIONS then 0 else s.version + n
  }

  lemma OneUnitLess(s: PaymentState, n: nat, t: PaymentState)
    requires UnitsLeft(s, n, t) && n < MaxOps(s) && s.version + n < VERSIONS
    ensures Apply(t, UnitOp(t)).Ok? && UnitsLeft(s, n + 1, Apply(t, UnitOp(t)).value)
  {
    UnitStepCounts(t);
  }

  /** A payment accepts unit operations as often as its bound says. */
  lemma {:induction false} UnitsAreAccepted(s: PaymentState, n: nat)
    requires ValidUpToVersion(s) && s.version < VERSIONS && s.version + n <= VERSIONS && n <= MaxOps(s)
    ensures UnitsLeft(s, n, AfterUnits(s, n))
  {
    if n > 0 {
      UnitsAreAccepted(s, n - 1);
      OneUnitLess(s, n - 1, AfterUnits(s, n - 1));
    }
  }

  lemma BoundedStaysValid(s: PaymentState, ops: seq<Op>)
    requires Valid(s) && s.version + MaxOps(s) < VERSIONS
    ensures Valid(Exec(s, ops))
  {
    OperationsAreBounded(s, ops);
  }

  lemma UnitsWrap(s: PaymentState)
    requires Valid(s) && s.version < VERSIONS <= s.version + MaxOps(s)
    ensures Exec(s, UnitOps(s, VERSIONS - s.version)).version == 0
  {
    UnitsAreAccepted(s, VERSIONS - s.version);
    UnitOpsRun(s, VERSIONS - s.version);
  }

  /**
   A valid payment stays valid under every sequence of operations exactly when its version
   and the operations that it can still accept stay below 2^64; otherwise unit captures
   and unit refunds wrap the version around to zero.
   */
  lemma {:induction false} StaysValidIff(s: PaymentState)
    requires Valid(s) && s.version < VERSIONS
    ensures (forall ops :: Valid(Exec(s, ops))) <==> s.version + MaxOps(s) < VERSIONS
  {
    if s.version + MaxOps(s) < VERSIONS {
      forall ops
        ensures Valid(Exec(s, ops))
      {
        BoundedStaysValid(s, ops);
      }
    } else {
      UnitsWrap(s);
      assert !Valid(Exec(s, UnitOps(s, VERSIONS - s.version)));
    }
  }

  /** A new payment stays valid for ever exactly when its amount is below the largest 64-bit one. */
  lemma AlwaysValidIff(id: string, amount: Money)
    requires New(id, amount).Ok?
    ensures (forall ops :: Valid(Exec(New(id, amount).value, ops))) <==> amount.amount < MAX_AMOUNT
  {
    StaysValidIff(New(id, amount).value);
  }
}
