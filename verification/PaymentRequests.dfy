/**
 Payment commands behind the idempotent transactional handler: the status of each error
 (writePaymentError of internal/payment/adapters/http/handler.go) decides whether the
 transaction rolls back, so an error response must never leave part of a command behind.
 */
module PaymentRequests {
  import opened Outcomes
  import opened Payments
  import opened PaymentEvents
  import PaymentStore
  import Idempotency

  function StatusOfPaymentError(e: PaymentError): nat {
    match e
    case InvalidTransition => 409
    case InvalidCapturedAmount => 409
    case InvalidRefundedAmount => 409
    case InvalidPaymentId => 400
    case InvalidMoneyAmount => 400
    case InvalidCurrency => 400
    case _ => 500
  }

  function StatusOf(e: CommandError): nat {
    match e
    case Refused(reason) => StatusOfPaymentError(reason)
    case NotStored(NotFound) => 404
    case NotStored(VersionConflict) => 409
    case NotStored(Unrestorable(reason)) => StatusOfPaymentError(reason)
    case NotPublished(_) => 500
  }

  /**
   What the handler of a command leaves and answers inside the request's transaction.
   `leftover` is whatever a publication that failed midway had written by then.
   */
  ghost function CommandEffect(encode: Encoder, db: Db, at: int, correlationId: string, cmd: Command,
                               leftover: Db,
                                 render: (Result<PaymentState, CommandError>) -> (Idempotency.Headers,
                                 string)): Idempotency.Effect<Db>
  {
    match Execute(encode, db, at, correlationId, cmd)
    case Ok((after, payment)) =>
      var (headers, body) := render(Ok(payment));
      Idempotency.Effect(after, Idempotency.Response(if cmd.CreatePayment? then 201 else 200, headers, body))
    case Err(e) =>
      var (headers, body) := render(Err(e));
      Idempotency.Effect(if e.NotPublished? then leftover else db, Idempotency.Response(StatusOf(e), headers, body))
  }

  /**
   One payment request as a whole: either the command was carried out completely and the
   response says so, or the payment, event and job tables are as before.
   */
  lemma RequestIsAtomic(encode: Encoder, db: Idempotency.Db<Db>, r: Idempotency.Request, at: int,
                        correlationId: string, cmd: Command,
                        leftover: Db, render: (Result<PaymentState, CommandError>) -> (Idempotency.Headers, string))
    requires Idempotency.Runs(db.records, r)
    ensures var effect := CommandEffect(encode, db.app, at, correlationId, cmd, leftover, render);
            var (after, response) := Idempotency.Serve(db, r, effect);
            match Execute(encode, db.app, at, correlationId, cmd)
            case Ok((done, _)) => after.app == done && response.status == (if cmd.CreatePayment? then 201 else 200)
            case Err(e) => after.app == db.app && response.status == StatusOf(e) && response.status >= 400
  {
  }

  /**
   A command sent under a key and committed is not carried out again: whatever happens
   in between, sending the request once more changes nothing and repeats status and body.
   */
  lemma {:induction false} RetriedCommandIsNotRepeated(encode: Encoder, app: Db, before: seq<Idempotency.Step<Db>>,
      later: seq<Idempotency.Step<Db>>,
                                    r: Idempotency.Request, at: int, correlationId: string, cmd: Command, leftover: Db,
                                    render: (Result<PaymentState, CommandError>) -> (Idempotency.Headers, string),
                                      again: Idempotency.Effect<Db>)
    requires Idempotency.Keyed(r)
    requires Idempotency.RecordId(r) !in Idempotency.Run(Idempotency.Start(app), before).db.records
    requires Execute(encode, Idempotency.Run(Idempotency.Start(app), before).db.app, at, correlationId, cmd).Ok?
    ensures var s := Idempotency.Run(Idempotency.Start(app), before);
            var effect := CommandEffect(encode, s.db.app, at, correlationId, cmd, leftover, render);
            var (_, first) := Idempotency.Serve(s.db, r, effect);
            var db := Idempotency.Run(Idempotency.Next(s, Idempotency.Handle(r, effect)), later).db;
            var (after, second) := Idempotency.Serve(db, r, again);
            after == db && second.status == first.status && second.body == first.body
  {
    var s := Idempotency.Run(Idempotency.Start(app), before);
    var effect := CommandEffect(encode, s.db.app, at, correlationId, cmd, leftover, render);
    var steps := before + [Idempotency.Handle(r, effect)];
    assert steps[..|steps| - 1] == before;
    var i := |s.executions|;
    Idempotency.LaterRequestsAreReplayed(app, steps, later, i, r, again);
  }
}
