/**
 The payment table of internal/payment/adapters/sqlite/repository.go and any number
 of clients that read, change and save payments in separate interleaved steps.
 */
module PaymentStore {
  import opened Outcomes
  import opened Payments

  type Table = map<string, PaymentState>

  datatype StoreError = NotFound | VersionConflict | Unrestorable(reason: PaymentError)

  /** The upsert with its guard on the version; amount and currency of an existing row are kept. */
  function Save(rows: Table, s: PaymentState): Result<Table, StoreError> {
    if s.id !in rows then Ok(rows[s.id := s])
    else if rows[s.id].version != s.version - 1 then Err(VersionConflict)
    else Ok(rows[s.id := s.(amount := rows[s.id].amount)])
  }

  /** Only a new payment or the very next version is accepted; it keeps its amount, and others stay. */
  lemma SaveIff(rows: Table, s: PaymentState)
    ensures Save(rows, s).Ok? <==> (s.id in rows ==> s.version == rows[s.id].version + 1)
    ensures Save(rows, s).Ok? ==>
              var after := Save(rows, s).value;
              && after.Keys == rows.Keys + {s.id} && (forall k :: k in rows && k != s.id ==> after[k] == rows[k])
              && after[s.id] == if s.id in rows then s.(amount := rows[s.id].amount) else s
  {
  }

  function Find(rows: Table, id: string): Result<PaymentState, StoreError> {
    if id !in rows then Err(NotFound)
    else if NewMoney(rows[id].amount.amount, rows[id].amount.currency).Err? then
      Err(Unrestorable(NewMoney(rows[id].amount.amount, rows[id].amount.currency).error))
    else if Validate(rows[id]).Some? then Err(Unrestorable(Validate(rows[id]).value))
    else Ok(rows[id])
  }

  class PaymentRepository {
    var rows: Table

    constructor ()
      ensures rows == map[]
    {
      rows := map[];
    }

    method SavePayment(payment: Payment) returns (err: Option<StoreError>)
      modifies this
      ensures match Save(old(rows), payment.State())
              case Ok(after) => rows == after && err == None
              case Err(e) => rows == old(rows) && err == Some(e)
    {
      if payment.id in rows {
        var row := rows[payment.id];
        if row.version != payment.version - 1 {
          return Some(VersionConflict);
        }
        rows := rows[payment.id := row.(status := payment.status, authorized := payment.authorized,
          captured := payment.captured, refunded := payment.refunded, version := payment.version, id := payment.id)];
      } else {
        rows := rows[payment.id := payment.State()];
      }
      return None;
    }

    method FindByID(id: string) returns (payment: Payment?, err: Option<StoreError>)
      ensures match Find(rows, id)
              case Ok(s) => err == None && payment != null && fresh(payment) && payment.State() == s
              case Err(e) => err == Some(e) && payment == null
    {
      if id !in rows {
        return null, Some(NotFound);
      }
      var money := NewMoney(rows[id].amount.amount, rows[id].amount.currency);
      if money.Err? {
        return null, Some(Unrestorable(money.error));
      }
      var invalid := Validate(rows[id]);
      if invalid.Some? {
        return null, Some(Unrestorable(invalid.value));
      }
      payment := new Payment.Restore(rows[id]);
      err := None;
    }
  }

  // ----- Interleaved clients -----

  datatype Client = Found(state: PaymentState) | Changed(base: PaymentState, op: Op, state: PaymentState)

  /** `created` and `log` record, per payment, its first state and the operations committed so far. */
  datatype Sys = Sys(rows: Table, clients: map<nat, Client>, created: Table, log: map<string, seq<Op>>)

  const INIT := Sys(map[], map[], map[], map[])

  datatype Step =
    | Create(id: string, amount: int, currency: string)
    | Read(c: nat, id: string)
    | Change(c: nat, op: Op)
    | Commit(c: nat)
    | Leave(c: nat)

  function Creation(id: string, amount: int, currency: string): Result<PaymentState, PaymentError> {
    match NewMoney(amount, currency)
    case Ok(money) => New(id, money)
    case Err(e) => Err(e)
  }

  function Next(s: Sys, step: Step): Sys {
    match step
    case Create(id, amount, currency) =>
      (match Creation(id, amount, currency)
       case Err(_) => s
       case Ok(payment) =>
         match Save(s.rows, payment)
         case Err(_) => s
         case Ok(rows) => s.(rows := rows, created := s.created[id := payment], log := s.log[id := []]))
    case Read(c, id) =>
      (match Find(s.rows, id)
       case Err(_) => s
       case Ok(state) => s.(clients := s.clients[c := Found(state)]))
    case Change(c, op) =>
      if c !in s.clients || s.clients[c].Changed? then s
      else
        (match Apply(s.clients[c].state, op)
         case Err(_) => s.(clients := s.clients - {c})
         case Ok(state) => s.(clients := s.clients[c := Changed(s.clients[c].state, op, state)]))
    case Commit(c) =>
      if c !in s.clients || s.clients[c].Found? then s
      else
        (match Save(s.rows, s.clients[c].state)
         case Err(_) => s.(clients := s.clients - {c})
         case Ok(rows) =>
           var id := s.clients[c].state.id;
           var log := (if id in s.log then s.log[id] else []) + [s.clients[c].op];
           s.(rows := rows, clients := s.clients - {c}, log := s.log[id := log]))
    case Leave(c) => s.(clients := s.clients - {c})
  }

  function Run(s: Sys, steps: seq<Step>): Sys {
    if steps == [] then s else Next(Run(s, steps[..|steps| - 1]), steps[|steps| - 1])
  }

  // ----- The committed operations are one sequential history -----

  /** Each operation was accepted in the state that the ones before it left, and the versions count them. */
  predicate Committed(first: PaymentState, log: seq<Op>) {
    if log == [] then New(first.id, first.amount) == Ok(first) && ValidCurrency(first.amount.currency)
    else
      var init := log[..|log| - 1];
      Committed(first, init) && Apply(Exec(first, init), log[|log| - 1]).Ok? && Exec(first, log).version == |log| + 1
  }

  lemma {:induction false} CommittedFacts(first: PaymentState, log: seq<Op>)
    requires Committed(first, log)
    ensures var s := Exec(first, log);
            Valid(s) && s.version == |log| + 1 && s.id == first.id && s.amount == first.amount &&
              ValidCurrency(s.amount.currency)
    ensures Accepted(first, log).count == |log|
  {
    if log != [] {
      var init := log[..|log| - 1];
      CommittedFacts(first, init);
      TransitionKeepsValid(Exec(first, init), log[|log| - 1]);
    }
  }

  lemma {:induction false} CommittedPrefix(first: PaymentState, log: seq<Op>, i: nat)
    requires Committed(first, log) && i <= |log|
    ensures Committed(first, log[..i])
  {
    if i == |log| {
      assert log[..i] == log;
    } else {
      var init := log[..|log| - 1];
      CommittedPrefix(first, init, i);
      assert init[..i] == log[..i];
    }
  }

  predicate WasStored(s: Sys, state: PaymentState) {
    && state.id in s.log && state.id in s.created
    && 1 <= state.version <= |s.log[state.id]| + 1
    && state == Exec(s.created[state.id], s.log[state.id][..state.version - 1])
  }

  predicate ClientOk(s: Sys, client: Client) {
    match client
    case Found(state) => WasStored(s, state)
    case Changed(base, op, state) => WasStored(s, base) && Apply(base, op) == Ok(state)
  }

  ghost predicate Inv(s: Sys) {
    match s
    case Sys(rows, clients, created, log) =>
      && rows.Keys == created.Keys == log.Keys
      && (forall id ::
           id in rows ==>
             created[id].id == id && Committed(created[id], log[id]) && rows[id] == Exec(created[id], log[id]))
      && (forall c :: c in clients ==> ClientOk(s, clients[c]))
  }

  lemma RowIsLatest(s: Sys, id: string)
    requires Inv(s) && id in s.rows
    ensures s.rows[id].id == id && s.rows[id].version == |s.log[id]| + 1 && Valid(s.rows[id]) &&
            ValidCurrency(s.rows[id].amount.currency)
    ensures WasStored(s, s.rows[id])
  {
    CommittedFacts(s.created[id], s.log[id]);
    assert s.log[id][..|s.log[id]|] == s.log[id];
  }

  lemma WasStoredFacts(s: Sys, state: PaymentState)
    requires Inv(s) && WasStored(s, state)
    ensures state.id in s.rows && Valid(state) && state.version <= s.rows[state.id].version &&
            state.amount == s.rows[state.id].amount
    ensures state.version == s.rows[state.id].version ==> state == s.rows[state.id]
  {
    var id := state.id;
    RowIsLatest(s, id);
    CommittedPrefix(s.created[id], s.log[id], state.version - 1);
    CommittedFacts(s.created[id], s.log[id][..state.version - 1]);
    CommittedFacts(s.created[id], s.log[id]);
    assert s.log[id][..|s.log[id]|] == s.log[id];
  }

  /** A client whose save is accepted read the row that it overwrites. */
  lemma AcceptedSaveSawTheRow(s: Sys, c: nat)
    requires Inv(s) && c in s.clients && s.clients[c].Changed? && Save(s.rows, s.clients[c].state).Ok?
    ensures var id := s.clients[c].state.id;
            && id in s.rows && s.rows[id] == s.clients[c].base
            && s.clients[c].state.version == s.rows[id].version + 1
            && Save(s.rows, s.clients[c].state) == Ok(s.rows[id := s.clients[c].state])
  {
    var client := s.clients[c];
    assert ClientOk(s, client);
    WasStoredFacts(s, client.base);
    VersionMoves(client.base, client.op);
    assert client.state.version == client.base.version + 1;
  }

  /** What was stored stays part of the history when an operation is appended. */
  lemma LogGrows(s: Sys, t: Sys, id: string, op: Op, client: Client)
    requires id in s.log && id in s.created && t.log == s.log[id := s.log[id] + [op]] && t.created == s.created &&
             ClientOk(s, client)
    ensures ClientOk(t, client)
  {
    var seen := if client.Found? then client.state else client.base;
    if seen.id == id {
      assert t.log[id][..seen.version - 1] == s.log[id][..seen.version - 1];
    }
  }

  lemma AcceptedCommitKeepsInv(s: Sys, c: nat)
    requires Inv(s) && c in s.clients && s.clients[c].Changed? && Save(s.rows, s.clients[c].state).Ok?
    ensures Inv(Next(s, Commit(c)))
  {
    var t, client := Next(s, Commit(c)), s.clients[c];
    var id := client.state.id;
    assert ClientOk(s, client);
    AcceptedSaveSawTheRow(s, c);
    RowIsLatest(s, id);
    ExecSnoc(s.created[id], s.log[id], client.op);
    assert (s.log[id] + [client.op])[..|s.log[id]|] == s.log[id];
    forall d | d in t.clients
      ensures ClientOk(t, t.clients[d])
    {
      LogGrows(s, t, id, client.op, s.clients[d]);
    }
  }

  /** What was stored stays so when another payment is created. */
  lemma CreationKeepsClient(s: Sys, t: Sys, id: string, client: Client)
    requires id !in s.log && ClientOk(s, client)
    requires id in t.created && t.created == s.created[id := t.created[id]] && t.log == s.log[id := []]
    ensures ClientOk(t, client)
  {
  }

  lemma NewPaymentKeepsInv(s: Sys, payment: PaymentState)
    requires Inv(s) && payment.id !in s.rows
    requires New(payment.id, payment.amount) == Ok(payment) && ValidCurrency(payment.amount.currency)
    ensures Inv(s.(rows := s.rows[payment.id := payment], created := s.created[payment.id := payment],
            log := s.log[payment.id := []]))
  {
    var t := s.(rows := s.rows[payment.id := payment], created := s.created[payment.id := payment],
        log := s.log[payment.id := []]);
    forall c | c in t.clients
      ensures ClientOk(t, t.clients[c])
    {
      CreationKeepsClient(s, t, payment.id, s.clients[c]);
    }
  }

  lemma CreateKeepsInv(s: Sys, id: string, amount: int, currency: string)
    requires Inv(s)
    ensures id in s.rows ==> Next(s, Create(id, amount, currency)) == s
    ensures Inv(Next(s, Create(id, amount, currency)))
  {
    if id in s.rows {
      RowIsLatest(s, id);
    } else if Creation(id, amount, currency).Ok? {
      NewPaymentKeepsInv(s, Creation(id, amount, currency).value);
    }
  }

  /** Replacing one client, in a step that leaves the table alone. */
  lemma ClientStepKeepsInv(s: Sys, t: Sys, c: nat)
    requires Inv(s) && t.rows == s.rows && t.created == s.created && t.log == s.log
    requires t.clients == s.clients - {c} || (c in t.clients && t.clients == s.clients[c := t.clients[c]])
    requires c in t.clients ==> ClientOk(t, t.clients[c])
    ensures Inv(t)
  {
    forall d | d in t.clients
      ensures ClientOk(t, t.clients[d])
    {
      assert d != c ==> ClientOk(s, s.clients[d]);
    }
  }

  lemma {:induction false} CommitKeepsInv(s: Sys, c: nat)
    requires Inv(s)
    ensures Inv(Next(s, Commit(c)))
  {
    if c in s.clients && s.clients[c].Changed? {
      if Save(s.rows, s.clients[c].state).Ok? {
        AcceptedCommitKeepsInv(s, c);
      } else {
        ClientStepKeepsInv(s, Next(s, Commit(c)), c);
      }
    }
  }

  lemma {:induction false} StepKeepsInv(s: Sys, step: Step)
    requires Inv(s)
    ensures Inv(Next(s, step))
  {
    match step
    case Create(id, amount, currency) => CreateKeepsInv(s, id, amount, currency);
    case Read(c, id) =>
      if Find(s.rows, id).Ok? {
        RowIsLatest(s, id);
        ClientStepKeepsInv(s, Next(s, Read(c, id)), c);
      }
    case Change(c, op) =>
      if c in s.clients && s.clients[c].Found? {
        assert ClientOk(s, s.clients[c]);
        ClientStepKeepsInv(s, Next(s, Change(c, op)), c);
      }
    case Commit(c) => CommitKeepsInv(s, c);
    case Leave(c) => ClientStepKeepsInv(s, Next(s, Leave(c)), c);
  }

  lemma {:induction false} RunKeepsInv(steps: seq<Step>)
    ensures Inv(Run(INIT, steps))
  {
    if steps != [] {
      RunKeepsInv(steps[..|steps| - 1]);
      StepKeepsInv(Run(INIT, steps[..|steps| - 1]), steps[|steps| - 1]);
    }
  }

  /**
   However reads and saves interleave, a stored payment is its creation followed by the
   committed operations one after the other: each was accepted in the state that the
   previous one left, no commit is lost, and the version counts them.
   */
  lemma ConcurrentSavesAreSequential(steps: seq<Step>, id: string)
    requires id in Run(INIT, steps).rows
    ensures var s := Run(INIT, steps);
            && id in s.created && id in s.log
            && s.rows[id] == Exec(s.created[id], s.log[id])
            && Accepted(s.created[id], s.log[id]).count == |s.log[id]| == s.rows[id].version - 1
            && Committed(s.created[id], s.log[id])
            && Valid(s.rows[id])
  {
    RunKeepsInv(steps);
    RowIsLatest(Run(INIT, steps), id);
    CommittedFacts(Run(INIT, steps).created[id], Run(INIT, steps).log[id]);
  }

  /** A create never touches a payment that exists. */
  lemma CreateNeverOverwrites(steps: seq<Step>, id: string, amount: int, currency: string)
    requires id in Run(INIT, steps).rows
    ensures Next(Run(INIT, steps), Create(id, amount, currency)) == Run(INIT, steps)
  {
    RunKeepsInv(steps);
    CreateKeepsInv(Run(INIT, steps), id, amount, currency);
  }
}
