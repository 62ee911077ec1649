/**
 Replay scenarios: their validation (internal/replay/domain/scenario.go and command.go) and
 the stored record that a scenario is saved as and loaded from
 (internal/replay/adapters/sqlite/repository.go).
 */
module Scenarios {
  import opened Outcomes
  import opened Payments

  const UNSET_TIME := 0

  datatype CommandType =
    | CreatePayment
    | StartSaga
    | AuthorizePayment
    | CapturePayment
    | RefundPayment
    | CancelPayment
    | AdvanceTime
    | ExecuteAsync

  datatype Command = Command(kind: CommandType, paymentId: string, amount: Money, duration: int, operationId: string)

  datatype Scenario = Scenario(
    id: string,
    initialPayments: seq<PaymentState>,
    commands: seq<Command>,
    providerId: string,
    profile: string,
    initialVirtualTime: int,
    seed: nat)

  datatype CommandError = InvalidCommandPaymentId | InvalidCommandAmount

  datatype ScenarioError =
    | InvalidScenarioId
    | InvalidScenarioTime
    | InvalidProviderConfiguration
    | InvalidInitialPayment(reason: PaymentError)
    | DuplicateInitialPayment
    | InvalidCommand

  const NO_MONEY := Money(0, "")

  function ValidateCommand(c: Command): Option<CommandError> {
    if c.paymentId == "" && c.kind != AdvanceTime && c.kind != ExecuteAsync then Some(InvalidCommandPaymentId)
    else
      match c.kind
      case AuthorizePayment => if c.amount != NO_MONEY then Some(InvalidCommandAmount) else None
      case CancelPayment => if c.amount != NO_MONEY then Some(InvalidCommandAmount) else None
      case AdvanceTime =>
        if c.paymentId != "" || c.amount != NO_MONEY || c.duration <= 0 then Some(InvalidCommandAmount) else None
      case ExecuteAsync =>
        if c.paymentId != "" || c.amount != NO_MONEY || c.operationId == "" then Some(InvalidCommandPaymentId) else None
      case _ =>
        if c.amount.amount <= 0 || NewMoney(c.amount.amount, c.amount.currency).Err? then
          Some(InvalidCommandAmount)
        else None
  }

  // ----- Validation -----

  /** The first fault among the first `n` initial payments. */
  function PaymentFault(payments: seq<PaymentState>, n: nat): Option<ScenarioError>
    requires n <= |payments|
  {
    if n == 0 then None
    else
      match PaymentFault(payments, n - 1)
      case Some(e) => Some(e)
      case None =>
        match Validate(payments[n - 1])
        case Some(e) => Some(InvalidInitialPayment(e))
        case None => if Seen(payments, n - 1, payments[n - 1].id) then Some(DuplicateInitialPayment) else None
  }

  predicate Seen(payments: seq<PaymentState>, n: nat, id: string)
    requires n <= |payments|
  {
    exists i :: 0 <= i < n && payments[i].id == id
  }

  predicate CommandsValid(commands: seq<Command>) {
    forall i :: 0 <= i < |commands| ==> ValidateCommand(commands[i]) == None
  }

  function ScenarioFault(s: Scenario): Option<ScenarioError> {
    if s.id == "" then Some(InvalidScenarioId)
    else if s.initialVirtualTime == UNSET_TIME then Some(InvalidScenarioTime)
    else if s.providerId == "" then Some(InvalidProviderConfiguration)
    else
      match PaymentFault(s.initialPayments, |s.initialPayments|)
      case Some(e) => Some(e)
      case None => if CommandsValid(s.commands) then None else Some(InvalidCommand)
  }

  lemma {:induction false} FaultLasts(payments: seq<PaymentState>, n: nat, m: nat)
    requires n <= m <= |payments| && PaymentFault(payments, n).Some?
    ensures PaymentFault(payments, m) == PaymentFault(payments, n)
  {
    if n < m {
      FaultLasts(payments, n, m - 1);
    }
  }

  method ValidateScenario(s: Scenario) returns (fault: Option<ScenarioError>)
    ensures fault == ScenarioFault(s)
  {
    if s.id == "" {
      return Some(InvalidScenarioId);
    }
    if s.initialVirtualTime == UNSET_TIME {
      return Some(InvalidScenarioTime);
    }
    if s.providerId == "" {
      return Some(InvalidProviderConfiguration);
    }
    var seen: set<string> := {};
    for i := 0 to |s.initialPayments|
      invariant PaymentFault(s.initialPayments, i) == None
      invariant forall id :: id in seen <==> Seen(s.initialPayments, i, id)
    {
      var payment := s.initialPayments[i];
      var invalid := Validate(payment);
      if invalid.Some? || payment.id in seen {
        FaultLasts(s.initialPayments, i + 1, |s.initialPayments|);
        return if invalid.Some? then Some(InvalidInitialPayment(invalid.value)) else Some(DuplicateInitialPayment);
      }
      seen := seen + {payment.id};
    }
    for i := 0 to |s.commands|
      invariant forall j :: 0 <= j < i ==> ValidateCommand(s.commands[j]) == None
    {
      var invalid := ValidateCommand(s.commands[i]);
      if invalid.Some? {
        return Some(InvalidCommand);
      }
    }
    return None;
  }

  /** A scenario is valid exactly when its parts are and its initial payments have distinct ids. */
  lemma ValidScenarioIff(s: Scenario)
    ensures ScenarioFault(s) == None
       <==> && s.id != "" && s.initialVirtualTime != UNSET_TIME && s.providerId != ""
            && (forall i :: 0 <= i < |s.initialPayments| ==> Valid(s.initialPayments[i]))
            && (forall i, j :: 0 <= i < j < |s.initialPayments| ==> s.initialPayments[i].id != s.initialPayments[j].id)
            && CommandsValid(s.commands)
  {
    NoFaultIff(s.initialPayments, |s.initialPayments|);
  }

  lemma {:induction false} NoFaultIff(payments: seq<PaymentState>, n: nat)
    requires n <= |payments|
    ensures PaymentFault(payments, n) == None
       <==> && (forall i :: 0 <= i < n ==> Valid(payments[i]))
            && (forall i, j :: 0 <= i < j < n ==> payments[i].id != payments[j].id)
  {
    if n > 0 {
      NoFaultIff(payments, n - 1);
      assert Seen(payments, n - 1, payments[n - 1].id) <==>
          exists i :: 0 <= i < n - 1 && payments[i].id == payments[n - 1].id;
    }
  }

  // ----- The stored record -----

  datatype PaymentRecord = PaymentRecord(
    id: string, amount: int, currency: string, status: Status, authorized: int, captured: int, refunded: int,
      version: nat)

  datatype CommandRecord = CommandRecord(
    kind: CommandType,
    paymentId: string,
    amount: int,
    currency: string,
    duration: int,
    operationId: string)

  datatype ScenarioRecord = ScenarioRecord(
    id: string,
    initialPayments: seq<PaymentRecord>,
    commands: seq<CommandRecord>,
    providerId: string,
    profile: string,
    initialVirtualTime: int,
    seed: nat)

  function PaymentToRecord(p: PaymentState): PaymentRecord {
    PaymentRecord(p.id, p.amount.amount, p.amount.currency, p.status, p.authorized, p.captured, p.refunded, p.version)
  }

  function CommandToRecord(c: Command): CommandRecord {
    CommandRecord(c.kind, c.paymentId, c.amount.amount, c.amount.currency, c.duration, c.operationId)
  }

  /** The record holds exactly this scenario. */
  predicate RecordedAs(s: Scenario, r: ScenarioRecord) {
    && s.id == r.id && s.providerId == r.providerId && s.profile == r.profile
    && s.initialVirtualTime == r.initialVirtualTime && s.seed == r.seed
    && |r.initialPayments| == |s.initialPayments| && |r.commands| == |s.commands|
    && (forall i :: 0 <= i < |r.initialPayments| ==> r.initialPayments[i] == PaymentToRecord(s.initialPayments[i]))
    && (forall i :: 0 <= i < |r.commands| ==> r.commands[i] == CommandToRecord(s.commands[i]))
  }

  method ToRecord(s: Scenario) returns (r: ScenarioRecord)
    ensures RecordedAs(s, r)
  {
    var payments: seq<PaymentRecord>, commands: seq<CommandRecord> := [], [];
    for i := 0 to |s.initialPayments|
      invariant |payments| == i && forall j :: 0 <= j < i ==> payments[j] == PaymentToRecord(s.initialPayments[j])
    {
      payments := payments + [PaymentToRecord(s.initialPayments[i])];
    }
    for i := 0 to |s.commands|
      invariant |commands| == i && forall j :: 0 <= j < i ==> commands[j] == CommandToRecord(s.commands[j])
    {
      commands := commands + [CommandToRecord(s.commands[i])];
    }
    r := ScenarioRecord(s.id, payments, commands, s.providerId, s.profile, s.initialVirtualTime, s.seed);
  }

  datatype LoadError = InvalidMoney(reason: PaymentError) | InvalidScenario(fault: ScenarioError)

  /** The money of a stored command; absent money is the zero value. */
  function CommandMoney(c: CommandRecord): Result<Money, PaymentError> {
    if c.amount != 0 || c.currency != "" then NewMoney(c.amount, c.currency) else Ok(NO_MONEY)
  }

  method ToDomain(r: ScenarioRecord) returns (s: Result<Scenario, LoadError>)
    ensures s.Ok? ==>
              forall i :: 0 <= i < |r.initialPayments| ==>
                NewMoney(r.initialPayments[i].amount, r.initialPayments[i].currency).Ok?
    ensures s.Ok? ==> forall i :: 0 <= i < |r.commands| ==> CommandMoney(r.commands[i]).Ok?
    ensures s.Ok? ==> RecordedAs(s.value, r) && ScenarioFault(s.value) == None
    ensures s.Err? && s.error.InvalidMoney? ==>
              || (exists i ::
                   0 <= i < |r.initialPayments| &&
                   NewMoney(r.initialPayments[i].amount, r.initialPayments[i].currency).Err?)
              || (exists i :: 0 <= i < |r.commands| && CommandMoney(r.commands[i]).Err?)
    ensures s.Err? && s.error.InvalidScenario? ==>
              forall t: Scenario :: RecordedAs(t, r) ==> ScenarioFault(t).Some?
  {
    var payments: seq<PaymentState>, commands: seq<Command> := [], [];
    for i := 0 to |r.initialPayments|
      invariant |payments| == i && forall j :: 0 <= j < i ==> PaymentToRecord(payments[j]) == r.initialPayments[j]
      invariant forall j :: 0 <= j < i ==> NewMoney(r.initialPayments[j].amount, r.initialPayments[j].currency).Ok?
    {
      var p := r.initialPayments[i];
      var money := NewMoney(p.amount, p.currency);
      if money.Err? {
        return Err(InvalidMoney(money.error));
      }
      payments := payments +
        [PaymentState(p.id, money.value, p.status, p.authorized, p.captured, p.refunded, p.version)];
    }
    for i := 0 to |r.commands|
      invariant |commands| == i && forall j :: 0 <= j < i ==> CommandToRecord(commands[j]) == r.commands[j]
      invariant forall j :: 0 <= j < i ==> CommandMoney(r.commands[j]).Ok?
    {
      var c := r.commands[i];
      var amount := CommandMoney(c);
      if amount.Err? {
        return Err(InvalidMoney(amount.error));
      }
      commands := commands + [Command(c.kind, c.paymentId, amount.value, c.duration, c.operationId)];
    }
    var loaded := Scenario(r.id, payments, commands, r.providerId, r.profile, r.initialVirtualTime, r.seed);
    var fault := ValidateScenario(loaded);
    if fault.Some? {
      forall t: Scenario | RecordedAs(t, r)
        ensures ScenarioFault(t).Some?
      {
        RecordDetermines(t, loaded, r);
      }
      return Err(InvalidScenario(fault.value));
    }
    return Ok(loaded);
  }

  lemma RecordDetermines(s: Scenario, t: Scenario, r: ScenarioRecord)
    requires RecordedAs(s, r) && RecordedAs(t, r)
    ensures s == t
  {
    forall i | 0 <= i < |s.initialPayments|
      ensures s.initialPayments[i] == t.initialPayments[i]
    {
      assert PaymentToRecord(s.initialPayments[i]) == PaymentToRecord(t.initialPayments[i]);
    }
    forall i | 0 <= i < |s.commands|
      ensures s.commands[i] == t.commands[i]
    {
      assert CommandToRecord(s.commands[i]) == CommandToRecord(t.commands[i]);
    }
  }

  /** The money of every valid command survives the record. */
  lemma ValidCommandMoney(c: Command)
    requires ValidateCommand(c) == None
    ensures CommandMoney(CommandToRecord(c)) == Ok(c.amount)
  {
  }

  /**
   Saving a valid scenario and loading it gives the scenario back exactly when its
   initial payments have proper currencies, which validation does not ask for; if one
   has not, the saved scenario cannot be loaded.
   */
  method SaveAndLoad(s: Scenario) returns (loaded: Result<Scenario, LoadError>)
    requires ScenarioFault(s) == None
    ensures loaded == Ok(s) <==>
            forall i :: 0 <= i < |s.initialPayments| ==> ValidCurrency(s.initialPayments[i].amount.currency)
    ensures loaded.Ok? ==> loaded == Ok(s)
  {
    var r := ToRecord(s);
    loaded := ToDomain(r);
    ValidScenarioIff(s);
    forall i | 0 <= i < |s.commands|
      ensures CommandMoney(r.commands[i]).Ok?
    {
      ValidCommandMoney(s.commands[i]);
    }
    forall i | 0 <= i < |s.initialPayments|
      ensures NewMoney(r.initialPayments[i].amount, r.initialPayments[i].currency).Ok? <==>
              ValidCurrency(s.initialPayments[i].amount.currency)
    {
      assert Valid(s.initialPayments[i]);
    }
    if loaded.Ok? {
      RecordDetermines(s, loaded.value, r);
    }
  }
}
