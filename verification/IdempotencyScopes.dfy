/**
 Which requests share a record or a fingerprint, on the requests' own fields, and what
 becomes of a request that is the first of its kind.
 */
module IdempotencyScopes {
  import opened Outcomes
  import opened Idempotency

  // ----- Keys -----

  predicate AllSpace(s: string) {
    forall i :: 0 <= i < |s| ==> IsSpace(s[i])
  }

  /** The text without the white space around it. */
  predicate TrimsTo(raw: string, before: string, key: string, after: string) {
    && raw == before + key + after && AllSpace(before) && AllSpace(after)
    && (key != "" ==> !IsSpace(key[0]) && !IsSpace(key[|key| - 1]))
  }

  ghost predicate Trimmed(raw: string, key: string) {
    exists before, after :: TrimsTo(raw, before, key, after)
  }

  lemma {:induction false} LeftIsTrimmed(s: string) returns (before: string)
    ensures s == before + TrimLeft(s) && AllSpace(before)
    ensures TrimLeft(s) != "" ==> !IsSpace(TrimLeft(s)[0])
  {
    if s != "" && IsSpace(s[0]) {
      before := LeftIsTrimmed(s[1..]);
      before := [s[0]] + before;
      assert s == [s[0]] + s[1..];
    } else {
      before := "";
    }
  }

  lemma {:induction false} RightIsTrimmed(s: string) returns (after: string)
    ensures s == TrimRight(s) + after && AllSpace(after)
    ensures TrimRight(s) != "" ==> !IsSpace(TrimRight(s)[|TrimRight(s)| - 1])
  {
    if s != "" && IsSpace(s[|s| - 1]) {
      after := RightIsTrimmed(s[..|s| - 1]);
      after := after + [s[|s| - 1]];
      assert s == s[..|s| - 1] + [s[|s| - 1]];
    } else {
      after := "";
    }
  }

  lemma KeyIsTrimmed(r: Request)
    ensures Trimmed(r.rawKey, Key(r))
  {
    var left := TrimLeft(r.rawKey);
    var before := LeftIsTrimmed(r.rawKey);
    var after := RightIsTrimmed(left);
    assert r.rawKey == before + Key(r) + after;
    if Key(r) != "" {
      assert left[0] == Key(r)[0];
    }
    assert TrimsTo(r.rawKey, before, Key(r), after);
  }

  lemma TrimsToOne(raw: string, before: string, key: string, after: string, left: string, other: string, right: string)
    requires TrimsTo(raw, before, key, after) && TrimsTo(raw, left, other, right)
    ensures key == other
  {
    SomethingIsLeft(raw, before, key, after);
    SomethingIsLeft(raw, left, other, right);
    if key != "" {
      StartsAt(raw, before, key, after, left, other, right);
      StartsAt(raw, left, other, right, before, key, after);
      EndsAt(raw, before, key, after, left, other, right);
      EndsAt(raw, left, other, right, before, key, after);
      assert key == raw[|before|..|raw| - |after|] && other == raw[|left|..|raw| - |right|];
    }
  }

  lemma SomethingIsLeft(raw: string, before: string, key: string, after: string)
    requires TrimsTo(raw, before, key, after)
    ensures key == "" <==> AllSpace(raw)
  {
    if key != "" {
      assert raw[|before|] == key[0];
    } else {
      assert raw == before + after;
    }
  }

  lemma StartsAt(raw: string, before: string, key: string, after: string, left: string, other: string, right: string)
    requires TrimsTo(raw, before, key, after) && TrimsTo(raw, left, other, right) && key != "" && other != ""
    ensures |before| <= |left|
  {
    assert raw[|left|] == other[0];
    forall i | 0 <= i < |before|
      ensures IsSpace(raw[i])
    {
      assert raw[i] == before[i];
    }
  }

  lemma EndsAt(raw: string, before: string, key: string, after: string, left: string, other: string, right: string)
    requires TrimsTo(raw, before, key, after) && TrimsTo(raw, left, other, right) && key != "" && other != ""
    ensures |after| <= |right|
  {
    var last := |raw| - |right| - 1;
    assert raw[last] == other[|other| - 1];
    forall i | |raw| - |after| <= i < |raw|
      ensures IsSpace(raw[i])
    {
      assert raw[i] == after[i - |before| - |key|];
    }
  }

  /** The key of a request is its raw key without the white space around it, and nothing else is. */
  lemma KeyIff(r: Request, key: string)
    ensures Key(r) == key <==> Trimmed(r.rawKey, key)
  {
    KeyIsTrimmed(r);
    if Trimmed(r.rawKey, key) {
      var before, after :| TrimsTo(r.rawKey, before, key, after);
      var left, right :| TrimsTo(r.rawKey, left, Key(r), right);
      TrimsToOne(r.rawKey, before, key, after, left, Key(r), right);
    }
  }

  // ----- Records and fingerprints -----

  /** The texts before and after the first separator are determined by the whole. */
  lemma SplitAtFirst(separator: char, a: string, b: string, x: string, y: string)
    requires separator !in a && separator !in x && a + [separator] + b == x + [separator] + y
    ensures a == x && b == y
  {
    var s := a + [separator] + b;
    assert s[|a|] == separator && s[|x|] == separator;
    assert forall i :: 0 <= i < |a| ==> s[i] == a[i] && a[i] != separator;
    assert forall i :: 0 <= i < |x| ==> s[i] == x[i] && x[i] != separator;
    assert a == s[..|a|] && x == s[..|x|] && b == s[|a| + 1..] && y == s[|x| + 1..];
  }

  /** Methods are tokens, and the path of a request line holds no line break. */
  predicate ProperLine(r: Request) {
    ' ' !in r.httpMethod && '\n' !in r.httpMethod && '\n' !in r.path
  }

  predicate SameCall(r: Request, q: Request) {
    r.httpMethod == q.httpMethod && r.path == q.path
  }

  lemma ScopesAgreeIff(r: Request, q: Request)
    requires ' ' !in r.httpMethod && ' ' !in q.httpMethod
    ensures Scope(r) == Scope(q) <==> SameCall(r, q)
  {
    assert Scope(r) == r.httpMethod + [' '] + r.path && Scope(q) == q.httpMethod + [' '] + q.path;
    if Scope(r) == Scope(q) {
      SplitAtFirst(' ', r.httpMethod, r.path, q.httpMethod, q.path);
    }
  }

  /** Two requests share a record exactly when method and path agree and their trimmed keys do. */
  lemma RecordsAgreeIff(r: Request, q: Request)
    requires ' ' !in r.httpMethod && ' ' !in q.httpMethod
    ensures RecordId(r) == RecordId(q) <==>
            SameCall(r, q) && exists key :: Trimmed(r.rawKey, key) && Trimmed(q.rawKey, key)
  {
    ScopesAgreeIff(r, q);
    KeyIsTrimmed(r);
    KeyIsTrimmed(q);
    forall key | Trimmed(r.rawKey, key) && Trimmed(q.rawKey, key)
      ensures Key(r) == Key(q)
    {
      KeyIff(r, key);
      KeyIff(q, key);
    }
  }

  /** Two requests have one fingerprint exactly when method, path and body agree. */
  lemma FingerprintsAgreeIff(r: Request, q: Request)
    requires r.body.Some? && q.body.Some? && ProperLine(r) && ProperLine(q)
    ensures Fingerprint(r) == Fingerprint(q) <==> SameCall(r, q) && r.body == q.body
  {
    ScopesAgreeIff(r, q);
    assert '\n' !in Scope(r) && '\n' !in Scope(q);
    assert Fingerprint(r) == Scope(r) + ['\n'] + r.body.value && Fingerprint(q) == Scope(q) + ['\n'] + q.body.value;
    if Fingerprint(r) == Fingerprint(q) {
      SplitAtFirst('\n', Scope(r), r.body.value, Scope(q), q.body.value);
    }
  }

  // ----- The first request of its kind -----

  /** Every record was left by a committed execution. */
  ghost predicate RecordsExecuted<App>(s: Sys<App>) {
    forall id :: id in s.db.records ==> exists i :: 0 <= i < |s.executions| && s.executions[i].id == id
  }

  lemma StepKeepsExecuted<App>(s: Sys<App>, step: Step<App>)
    requires RecordsExecuted(s)
    ensures RecordsExecuted(Next(s, step))
  {
    var t := Next(s, step);
    forall id | id in t.db.records
      ensures exists i :: 0 <= i < |t.executions| && t.executions[i].id == id
    {
      if id in s.db.records {
        var i :| 0 <= i < |s.executions| && s.executions[i].id == id;
        assert t.executions[i] == s.executions[i];
      } else {
        assert t.executions[|s.executions|].id == id;
      }
    }
  }

  lemma {:induction false} RecordsWereExecuted<App>(app: App, steps: seq<Step<App>>)
    ensures RecordsExecuted(Run(Start(app), steps))
  {
    if steps != [] {
      RecordsWereExecuted(app, steps[..|steps| - 1]);
      StepKeepsExecuted(Run(Start(app), steps[..|steps| - 1]), steps[|steps| - 1]);
    }
  }

  /** No committed execution was for the same method, path and key. */
  ghost predicate FirstOfItsKind(executions: seq<Execution>, r: Request) {
    forall i :: 0 <= i < |executions| ==>
      !(SameCall(executions[i].request, r) &&
        exists key :: Trimmed(executions[i].request.rawKey, key) && Trimmed(r.rawKey, key))
  }

  predicate ProperMethods(executions: seq<Execution>) {
    forall i :: 0 <= i < |executions| ==> ' ' !in executions[i].request.httpMethod
  }

  /** The response of the handler, as far as headers have values. */
  ghost predicate PassedOn(response: Response, original: Response) {
    && response.status == original.status && response.body == original.body
    && (forall name :: name in response.headers <==> name in original.headers && original.headers[name] != [])
    && (forall name :: name in response.headers ==> response.headers[name] == original.headers[name])
  }

  /** The inner handler ran: its effects and response are committed, or rolled back after a server error. */
  ghost predicate Ran<App>(db: Db<App>, served: (Db<App>, Response), effect: Effect<App>) {
    if effect.response.status >= 500 then served.0 == db && served.1.status == 500
    else served.0.app == effect.app && PassedOn(served.1, effect.response)
  }

  lemma UnseenRuns<App>(db: Db<App>, r: Request, effect: Effect<App>)
    requires Keyed(r) && RecordId(r) !in db.records
    ensures Ran(db, Serve(db, r, effect), effect)
    ensures Commits(db, r, effect) <==> effect.response.status < 500
  {
  }

  /**
   After any requests, a keyed request whose method, path and key no committed execution
   had before is carried out: its effects and its response are committed, unless it ends
   with a server error, and then nothing is.
   */
  lemma {:induction false} FirstRequestRuns<App>(app: App, steps: seq<Step<App>>, r: Request, effect: Effect<App>)
    requires Keyed(r) && ' ' !in r.httpMethod && ProperMethods(Run(Start(app), steps).executions)
    requires FirstOfItsKind(Run(Start(app), steps).executions, r)
    ensures var s := Run(Start(app), steps);
            && Ran(s.db, Serve(s.db, r, effect), effect)
            && Next(s, Handle(r, effect)).executions ==
               if effect.response.status >= 500 then s.executions
               else s.executions + [Execution(RecordId(r), r, Serve(s.db, r, effect).1)]
  {
    var s := Run(Start(app), steps);
    RecordsWereExecuted(app, steps);
    RunKeepsInv(Start(app), steps);
    if RecordId(r) in s.db.records {
      var i :| 0 <= i < |s.executions| && s.executions[i].id == RecordId(r);
      assert Remembered(s.db.records, s.executions[i]);
      RecordsAgreeIff(s.executions[i].request, r);
    }
    UnseenRuns(s.db, r, effect);
  }

  /** A request without a key always runs, one with too long a key or an unreadable body never does. */
  lemma OtherRequests<App>(db: Db<App>, r: Request, effect: Effect<App>)
    ensures Trimmed(r.rawKey, "") ==>
              Ran(db, Serve(db, r, effect), effect) && Serve(db, r, effect).0.records == db.records
    ensures forall key :: Trimmed(r.rawKey, key) && |key| > 255 ==>
              Serve(db, r, effect).0 == db && Serve(db, r, effect).1.status == 400
    ensures forall key :: Trimmed(r.rawKey, key) && 0 < |key| <= 255 && r.body.None? ==>
              Serve(db, r, effect).0 == db && Serve(db, r, effect).1.status == 400
  {
    KeyIsTrimmed(r);
    KeyIff(r, "");
    forall key | Trimmed(r.rawKey, key)
      ensures Key(r) == key
    {
      KeyIff(r, key);
    }
  }
}
