/**
 Idempotent requests: the record table (internal/idempotency/adapters/sqlite/repository.go)
 and the two layers of the payment HTTP handler around every command
 (internal/payment/adapters/http/handler.go:85-206), one transaction per request.

 `App` stands for all tables but the records. What a handler does to them and answers
 is a parameter of each request.
 */
module Idempotency {
  import opened Outcomes

  type Headers = map<string, seq<string>>

  datatype Response = Response(status: nat, headers: Headers, body: string)

  datatype Request = Request(httpMethod: string, path: string, rawKey: string, body: Option<string>)

  datatype Progress = Processing | Completed

  datatype Record = Record(fingerprint: string, progress: Progress, response: Response)

  type Table = map<(string, string), Record>

  datatype Db<App> = Db(records: Table, app: App)

  /** What the inner handler makes of a request: the tables it leaves and the response it writes. */
  datatype Effect<App> = Effect(app: App, response: Response)

  const MAX_KEY := 255
  const REPLAYABLE := ["Content-Type", "Location", "X-Correlation-ID"]
  const NO_RESPONSE := Response(0, map[], "")

  // ----- Requests -----

  predicate IsSpace(c: char) {
    c == ' ' || '\U{9}' <= c <= '\r' || c == '\U{85}' || c == '\U{A0}'
  }

  function TrimLeft(s: string): string {
    if s != "" && IsSpace(s[0]) then TrimLeft(s[1..]) else s
  }

  function TrimRight(s: string): string {
    if s != "" && IsSpace(s[|s| - 1]) then TrimRight(s[..|s| - 1]) else s
  }

  function Key(r: Request): string {
    TrimRight(TrimLeft(r.rawKey))
  }

  function Scope(r: Request): string {
    r.httpMethod + " " + r.path
  }

  /** What is hashed; the hash is taken to be injective. */
  function Fingerprint(r: Request): string
    requires r.body.Some?
  {
    Scope(r) + "\n" + r.body.value
  }

  /** Requests of one scope have one fingerprint exactly when their bodies agree. */
  lemma FingerprintIsTheBody(r: Request, q: Request)
    requires r.body.Some? && q.body.Some? && Scope(r) == Scope(q)
    ensures Fingerprint(r) == Fingerprint(q) <==> r.body == q.body
  {
    var n := |Scope(r) + "\n"|;
    assert Fingerprint(r)[n..] == r.body.value && Fingerprint(q)[n..] == q.body.value;
  }

  function ErrorResponse(status: nat, code: string): Response {
    Response(status, map["Content-Type" := ["application/json"]], code)
  }

  const KEY_TOO_LONG := ErrorResponse(400, "invalid_request: Idempotency-Key is too long")
  const UNREADABLE_BODY := ErrorResponse(400, "invalid_request: cannot read request body")
  const CONFLICT := ErrorResponse(409, "idempotency_conflict")
  const IN_PROGRESS := ErrorResponse(409, "idempotency_in_progress")
  const ROLLED_BACK := ErrorResponse(500, "internal_error: payment request failed; transaction rolled back")

  // ----- Headers -----

  /** Copying headers value by value drops names without values. */
  function Copied(headers: Headers): Headers {
    map name | name in headers && headers[name] != [] :: headers[name]
  }

  function Replayable(headers: Headers): Headers {
    map name | name in headers && headers[name] != [] && name in REPLAYABLE :: headers[name]
  }

  function CopiedResponse(r: Response): Response {
    r.(headers := Copied(r.headers))
  }

  // ----- Serving -----

  predicate Keyed(r: Request) {
    0 < |Key(r)| <= MAX_KEY && r.body.Some?
  }

  function RecordId(r: Request): (string, string) {
    (Scope(r), Key(r))
  }

  /** Whether a request gets as far as the inner handler. */
  predicate Runs(records: Table, r: Request) {
    Key(r) == "" || (Keyed(r) && RecordId(r) !in records)
  }

  /** The idempotency layer inside its transaction. */
  function Inner<App>(db: Db<App>, r: Request, effect: Effect<App>): (Db<App>, Response) {
    if Key(r) == "" then (Db(db.records, effect.app), effect.response)
    else if |Key(r)| > MAX_KEY then (db, KEY_TOO_LONG)
    else if r.body.None? then (db, UNREADABLE_BODY)
    else if RecordId(r) !in db.records then
      var records :=
        if effect.response.status >= 500 then db.records
        else db.records[RecordId(r) :=
            Record(Fingerprint(r), Completed, effect.response.(headers := Replayable(effect.response.headers)))];
      (Db(records, effect.app), CopiedResponse(effect.response))
    else
      var record := db.records[RecordId(r)];
      if record.fingerprint != Fingerprint(r) then (db, CONFLICT)
      else if record.progress != Completed then (db, IN_PROGRESS)
      else (db, record.response.(headers := Replayable(record.response.headers)))
  }

  /** The transaction around it: a server error rolls everything back. */
  function Serve<App>(db: Db<App>, r: Request, effect: Effect<App>): (Db<App>, Response) {
    var (after, response) := Inner(db, r, effect);
    if response.status >= 500 then (db, ROLLED_BACK) else (after, CopiedResponse(response))
  }

  // ----- The mutable objects -----

  class BufferedWriter {
    var headers: Headers
    var body: string
    var status: nat

    constructor ()
      ensures State() == NO_RESPONSE
    {
      headers, body, status := map[], "", 0;
    }

    function State(): Response
      reads this
    {
      Response(status, headers, body)
    }

    /** The first status wins. */
    method WriteHeader(code: nat)
      modifies this`status
      ensures status == if old(status) == 0 then code else old(status)
    {
      if status == 0 {
        status := code;
      }
    }

    method Write(data: string)
      modifies this`status, this`body
      ensures body == old(body) + data
      ensures status == if old(status) == 0 then 200 else old(status)
    {
      if status == 0 {
        status := 200;
      }
      body := body + data;
    }

    method Add(name: string, value: string)
      modifies this`headers
      ensures headers == old(headers)[name := (if name in old(headers) then old(headers)[name] else []) + [value]]
    {
      var values := if name in headers then headers[name] else [];
      headers := headers[name := values + [value]];
    }

    method AddAll(name: string, values: seq<string>)
      requires name !in headers
      modifies this`headers
      ensures headers == if values == [] then old(headers) else old(headers)[name := values]
    {
      for i := 0 to |values|
        invariant i == 0 ==> headers == old(headers)
        invariant i > 0 ==> headers == old(headers)[name := values[..i]]
      {
        assert values[..i + 1] == values[..i] + [values[i]];
        Add(name, values[i]);
      }
      assert values[..|values|] == values;
    }

    /** The loop over a header map, in whatever order it comes. */
    method CopyHeaders(from: Headers)
      requires headers == map[]
      modifies this`headers
      ensures headers == Copied(from)
    {
      var left := from.Keys;
      while left != {}
        invariant left <= from.Keys
        invariant headers == map name | name in from && name !in left && from[name] != [] :: from[name]
      {
        var name :| name in left;
        left := left - {name};
        AddAll(name, from[name]);
      }
    }

    /** The loop over the fixed list of names. */
    method ReplayHeaders(from: Headers)
      requires headers == map[]
      modifies this`headers
      ensures headers == Replayable(from)
    {
      for i := 0 to |REPLAYABLE|
        invariant headers == map name | name in from && from[name] != [] && name in REPLAYABLE[..i] :: from[name]
      {
        var name := REPLAYABLE[i];
        DistinctNames(i);
        assert REPLAYABLE[..i + 1] == REPLAYABLE[..i] + [name];
        if name in from {
          AddAll(name, from[name]);
        }
      }
      assert REPLAYABLE[..|REPLAYABLE|] == REPLAYABLE;
    }

    /** Copying a response out of a buffer: headers, status, body. */
    method Emit(from: Response)
      requires State() == NO_RESPONSE
      modifies this
      ensures from.status != 0 ==> State() == CopiedResponse(from)
    {
      CopyHeaders(from.headers);
      WriteHeader(from.status);
      Write(from.body);
    }
  }

  lemma DistinctNames(i: nat)
    requires i < |REPLAYABLE|
    ensures REPLAYABLE[i] !in REPLAYABLE[..i]
  {
    assert |"Content-Type"| == 12 && |"Location"| == 8 && |"X-Correlation-ID"| == 16;
  }

  class RecordRepository {
    var records: Table

    constructor ()
      ensures records == map[]
    {
      records := map[];
    }

    /** Inserts unless a record exists; an existing one must have the fingerprint. */
    method Reserve(id: (string, string), fingerprint: string) returns (reserved: bool, conflict: bool)
      modifies this
      ensures id !in old(records) ==>
                reserved && !conflict && records == old(records)[id := Record(fingerprint, Processing, NO_RESPONSE)]
      ensures id in old(records) ==>
                !reserved && records == old(records) && (conflict <==> records[id].fingerprint != fingerprint)
    {
      if id !in records {
        records := records[id := Record(fingerprint, Processing, NO_RESPONSE)];
        return true, false;
      }
      return false, records[id].fingerprint != fingerprint;
    }

    method Complete(id: (string, string), fingerprint: string, response: Response) returns (missing: bool)
      modifies this
      ensures missing <==> id !in old(records) || old(records)[id].fingerprint != fingerprint
      ensures records == if missing then old(records) else old(records)[id := Record(fingerprint, Completed, response)]
    {
      if id !in records || records[id].fingerprint != fingerprint {
        return true;
      }
      records := records[id := Record(fingerprint, Completed, response)];
      return false;
    }

    method Release(id: (string, string), fingerprint: string)
      modifies this
      ensures records == if id in old(records) && old(records)[id].fingerprint == fingerprint &&
              old(records)[id].progress == Processing
                         then old(records) - {id} else old(records)
    {
      if id in records && records[id].fingerprint == fingerprint && records[id].progress == Processing {
        records := records - {id};
      }
    }
  }

  class Handler<App> {
    const idempotency: RecordRepository
    var app: App

    constructor (app: App)
      ensures fresh(idempotency) && State() == Db(map[], app)
    {
      this.app := app;
      idempotency := new RecordRepository();
    }

    function State(): Db<App>
      reads this, idempotency
    {
      Db(idempotency.records, app)
    }

    /** The inner handler writes its response status first. */
    method Next(writer: BufferedWriter, effect: Effect<App>)
      requires writer.State() == NO_RESPONSE && effect.response.status != 0
      modifies this, writer
      ensures app == effect.app && writer.State() == effect.response
    {
      app := effect.app;
      writer.headers := effect.response.headers;
      writer.WriteHeader(effect.response.status);
      writer.Write(effect.response.body);
    }

    method WriteError(writer: BufferedWriter, response: Response)
      requires writer.State() == NO_RESPONSE && response.status != 0
      modifies writer
      ensures writer.State() == response
    {
      writer.headers := response.headers;
      writer.WriteHeader(response.status);
      writer.Write(response.body);
    }

    method Idempotent(writer: BufferedWriter, r: Request, effect: Effect<App>)
      requires writer.State() == NO_RESPONSE && effect.response.status != 0
      requires forall id :: id in idempotency.records ==> idempotency.records[id].response.status != 0
      modifies this, idempotency, writer
      ensures (State(), writer.State()) == Inner(old(State()), r, effect)
    {
      var key := Key(r);
      if key == "" {
        Next(writer, effect);
        return;
      }
      if |key| > MAX_KEY {
        WriteError(writer, KEY_TOO_LONG);
        return;
      }
      if r.body.None? {
        WriteError(writer, UNREADABLE_BODY);
        return;
      }
      var fingerprint, id := Fingerprint(r), (Scope(r), key);
      var reserved, conflict := idempotency.Reserve(id, fingerprint);
      if conflict {
        WriteError(writer, CONFLICT);
        return;
      }
      if !reserved {
        var existing := idempotency.records[id];
        if existing.progress != Completed {
          WriteError(writer, IN_PROGRESS);
          return;
        }
        writer.ReplayHeaders(existing.response.headers);
        writer.WriteHeader(existing.response.status);
        writer.Write(existing.response.body);
        assert old(idempotency.records)[id].response.status != 0;
        assert "" + existing.response.body == existing.response.body;
        return;
      }
      var buffer := new BufferedWriter();
      Next(buffer, effect);
      if buffer.status >= 500 {
        idempotency.Release(id, fingerprint);
        assert idempotency.records == old(idempotency.records);
      } else {
        var kept := new BufferedWriter();
        kept.ReplayHeaders(buffer.headers);
        var missing := idempotency.Complete(id, fingerprint, buffer.State().(headers := kept.headers));
        assert !missing;
        assert idempotency.records
            == old(idempotency.records)[id :=
              Record(fingerprint, Completed, effect.response.(headers := Replayable(effect.response.headers)))];
      }
      writer.Emit(buffer.State());
    }

    method Transactional(r: Request, effect: Effect<App>) returns (writer: BufferedWriter)
      requires effect.response.status != 0
      requires forall id :: id in idempotency.records ==> idempotency.records[id].response.status != 0
      modifies this, idempotency
      ensures fresh(writer) && (State(), writer.State()) == Serve(old(State()), r, effect)
    {
      var begun := State();
      var buffer := new BufferedWriter();
      Idempotent(buffer, r, effect);
      writer := new BufferedWriter();
      if buffer.status >= 500 {
        idempotency.records, app := begun.records, begun.app;
        WriteError(writer, ROLLED_BACK);
        return;
      }
      writer.Emit(buffer.State());
    }
  }

  // ----- Every sequence of requests -----

  datatype Step<App> = Handle(request: Request, effect: Effect<App>) | Elsewhere(app: App)

  /** A committed execution of the inner handler under a key. */
  datatype Execution = Execution(id: (string, string), request: Request, response: Response)

  datatype Sys<App> = Sys(db: Db<App>, executions: seq<Execution>)

  function Start<App>(app: App): Sys<App> {
    Sys(Db(map[], app), [])
  }

  predicate Commits<App>(db: Db<App>, r: Request, effect: Effect<App>) {
    Keyed(r) && RecordId(r) !in db.records && effect.response.status < 500
  }

  function Next<App>(s: Sys<App>, step: Step<App>): Sys<App> {
    match step
    case Elsewhere(app) => s.(db := s.db.(app := app))
    case Handle(r, effect) =>
      Sys(Serve(s.db, r, effect).0,
          if Commits(s.db, r, effect) then
            s.executions + [Execution(RecordId(r), r, Serve(s.db, r, effect).1)]
          else s.executions)
  }

  function Run<App>(s: Sys<App>, steps: seq<Step<App>>): Sys<App> {
    if steps == [] then s else Next(Run(s, steps[..|steps| - 1]), steps[|steps| - 1])
  }

  /** The record that an execution left. */
  predicate Remembered(records: Table, e: Execution) {
    match e
    case Execution(id, r, response) =>
      && Keyed(r) && id == RecordId(r) && response.status < 500 && response.headers == Copied(response.headers)
      && id in records
      && records[id] == Record(Fingerprint(r), Completed, response.(headers := Replayable(response.headers)))
  }

  ghost predicate Inv<App>(s: Sys<App>) {
    match s
    case Sys(db, executions) =>
      && (forall i :: 0 <= i < |executions| ==> Remembered(db.records, executions[i]))
      && (forall i, j :: 0 <= i < j < |executions| ==> executions[i].id != executions[j].id)
      && (forall id :: id in db.records ==> db.records[id].progress == Completed)
  }

  lemma ReplayableOfCopied(headers: Headers)
    ensures Replayable(Copied(headers)) == Replayable(headers)
    ensures Copied(Copied(headers)) == Copied(headers)
    ensures Replayable(Replayable(headers)) == Replayable(headers)
    ensures Copied(Replayable(headers)) == Replayable(headers)
  {
  }

  lemma StepKeepsInv<App>(s: Sys<App>, step: Step<App>)
    requires Inv(s)
    ensures Inv(Next(s, step))
  {
    if step.Handle? && Commits(s.db, step.request, step.effect) {
      var t, e := Next(s, step),
          Execution(RecordId(step.request), step.request, Serve(s.db, step.request, step.effect).1);
      ReplayableOfCopied(step.effect.response.headers);
      assert t.executions == s.executions + [e];
      assert Remembered(t.db.records, e);
      forall i | 0 <= i < |s.executions|
        ensures Remembered(t.db.records, s.executions[i]) && s.executions[i].id != e.id
      {
        assert Remembered(s.db.records, s.executions[i]);
      }
    }
  }

  lemma {:induction false} RunKeepsInv<App>(s: Sys<App>, steps: seq<Step<App>>)
    requires Inv(s)
    ensures Inv(Run(s, steps))
  {
    if steps != [] {
      RunKeepsInv(s, steps[..|steps| - 1]);
      StepKeepsInv(Run(s, steps[..|steps| - 1]), steps[|steps| - 1]);
    }
  }

  lemma {:induction false} ExecutionsAreKept<App>(s: Sys<App>, steps: seq<Step<App>>, i: nat)
    requires i < |s.executions|
    ensures i < |Run(s, steps).executions| && Run(s, steps).executions[i] == s.executions[i]
  {
    if steps != [] {
      ExecutionsAreKept(s, steps[..|steps| - 1], i);
    }
  }

  /**
   For every sequence of requests and other transactions, the inner handler's effects are
   committed at most once per scope and key.
   */
  lemma AtMostOneExecution<App>(app: App, steps: seq<Step<App>>, i: nat, j: nat)
    requires i < j < |Run(Start(app), steps).executions|
    ensures Run(Start(app), steps).executions[i].id != Run(Start(app), steps).executions[j].id
  {
    RunKeepsInv(Start(app), steps);
  }

  /** The case in which the layer answers that an identical request is being processed. */
  predicate FindsInProgress(records: Table, r: Request) {
    && Keyed(r) && RecordId(r) in records
    && records[RecordId(r)].fingerprint == Fingerprint(r) && records[RecordId(r)].progress != Completed
  }

  /** No committed state has that case: the reservation is never visible outside its own transaction. */
  lemma {:induction false} NeverInProgress<App>(app: App, steps: seq<Step<App>>, r: Request)
    ensures !FindsInProgress(Run(Start(app), steps).db.records, r)
  {
    RunKeepsInv(Start(app), steps);
  }

  /** The answer to a request whose scope and key were executed before. */
  predicate AnsweredAs(first: Execution, r: Request, response: Response) {
    if r.body != first.request.body then response == CopiedResponse(CONFLICT)
    else
      && response.status == first.response.status && response.body == first.response.body
      && response.headers == Replayable(first.response.headers)
  }

  /**
   After a committed execution, however many steps later, a request of its scope and key
   leaves all tables as they are. With the same body it gets the status, the body and
   the replayable headers of the first response, with another body a conflict.
   */
  lemma LaterRequestsAreReplayed<App>(app: App, before: seq<Step<App>>, later: seq<Step<App>>, i: nat, r: Request,
                                      effect: Effect<App>)
    requires i < |Run(Start(app), before).executions|
    requires Keyed(r) && RecordId(r) == Run(Start(app), before).executions[i].id
    ensures var db := Run(Run(Start(app), before), later).db;
            && Serve(db, r, effect).0 == db
            && AnsweredAs(Run(Start(app), before).executions[i], r, Serve(db, r, effect).1)
  {
    var s := Run(Start(app), before);
    var t, first := Run(s, later), s.executions[i];
    RunKeepsInv(Start(app), before);
    RunKeepsInv(s, later);
    ExecutionsAreKept(s, later, i);
    assert Remembered(t.db.records, t.executions[i]);
    FingerprintIsTheBody(r, first.request);
    ReplayableOfCopied(first.response.headers);
  }

  /** The replay repeats the first response in full exactly when all its headers are replayable. */
  lemma FullReplayIff<App>(app: App, before: seq<Step<App>>, later: seq<Step<App>>, i: nat, r: Request,
                           effect: Effect<App>)
    requires i < |Run(Start(app), before).executions|
    requires Keyed(r) && RecordId(r) == Run(Start(app), before).executions[i].id &&
             r.body == Run(Start(app), before).executions[i].request.body
    ensures var first := Run(Start(app), before).executions[i].response;
            Serve(Run(Run(Start(app), before), later).db, r, effect).1 == first
            <==> forall name :: name in first.headers ==> name in REPLAYABLE
  {
    LaterRequestsAreReplayed(app, before, later, i, r, effect);
    RunKeepsInv(Start(app), before);
    var first := Run(Start(app), before).executions[i].response;
    assert Remembered(Run(Start(app), before).db.records, Run(Start(app), before).executions[i]);
    assert first.headers == Copied(first.headers);
    assert forall name :: name in first.headers ==> first.headers[name] != [];
    if forall name :: name in first.headers ==> name in REPLAYABLE {
      assert Replayable(first.headers) == first.headers;
    }
  }

  /** A server error of the inner handler leaves no trace and can be retried as if it had never been sent. */
  lemma ServerErrorLeavesNoTrace<App>(s: Sys<App>, r: Request, effect: Effect<App>)
    requires Inv(s) && Runs(s.db.records, r) && effect.response.status >= 500
    ensures Next(s, Handle(r, effect)) == s && Serve(s.db, r, effect).1 == ROLLED_BACK
  {
  }
}
