/**
 When delivery job ids keep events and endpoints apart. A delivery job is named
 `webhook:<event id>:<endpoint id>`, and endpoint ids are any non-empty text.
 */
module DeliveryIds {
  import opened Outcomes
  import opened Ordering
  import opened Decimal
  import opened PaymentEvents
  import opened EventKinds
  import Jobs
  import JobStore

  /** Type and version of an event, behind some text or not. */
  function TypeAndVersion(text: Option<string>, eventType: string, version: nat): string {
    match text
    case None => eventType + ":" + Print(version)
    case Some(x) => TaggedId(x, eventType, version)
  }

  /**
   One endpoint id is another one behind `type:version:` or `text:type:version:`, for a type
   and version that events have.
   */
  ghost predicate Extends(a: string, b: string) {
    exists text, eventType, version :: ExtendsWith(a, b, text, eventType, version)
  }

  predicate ExtendsWith(a: string, b: string, text: Option<string>, eventType: string, version: nat) {
    Occurs(eventType, version) && a == TypeAndVersion(text, eventType, version) + ":" + b
  }

  /** Some two events have one delivery job id for the two endpoints. */
  ghost predicate Collide(a: string, b: string) {
    exists e, f :: EventId(e) && EventId(f) && DeliveryId(e, a) == DeliveryId(f, b)
  }

  // ----- Where a colon splits a text -----

  function LastColon(s: string): (i: nat)
    requires ':' in s
    ensures i < |s| && s[i] == ':' && ':' !in s[i + 1..]
  {
    if s[|s| - 1] == ':' then |s| - 1
    else
      assert s == s[..|s| - 1] + [s[|s| - 1]];
      LastColon(s[..|s| - 1])
  }

  lemma SplitByLastColon(s: string) returns (before: string, after: string)
    requires ':' in s
    ensures s == before + ":" + after && ':' !in after
  {
    var i := LastColon(s);
    before, after := s[..i], s[i + 1..];
  }

  lemma TypeHasNoColon(eventType: string)
    requires ValidType(eventType)
    ensures ':' !in eventType && eventType != [] && eventType[0] == 'p'
  {
  }

  lemma SameDelivery(e: string, a: string, f: string, b: string)
    ensures DeliveryId(e, a) == DeliveryId(f, b) <==> e + ":" + a == f + ":" + b
  {
    assert DeliveryId(e, a) == "webhook:" + (e + ":" + a);
    assert DeliveryId(f, b) == "webhook:" + (f + ":" + b);
    assert DeliveryId(e, a)[8..] == e + ":" + a && DeliveryId(f, b)[8..] == f + ":" + b;
  }

  /**
   Two readings of one text: the longer endpoint id ends with the shorter one, behind what
   the other event id has more.
   */
  lemma Overlap(e: string, a: string, f: string, b: string) returns (middle: string)
    requires e + ":" + a == f + ":" + b && |a| > |b|
    ensures a == middle + ":" + b && f == e + ":" + middle
  {
    var s := e + ":" + a;
    middle := a[..|f| - |e| - 1];
    assert |e| + |a| == |f| + |b|;
    assert s[|f|] == ':' && s[|f|] == a[|f| - |e| - 1];
    assert a[|f| - |e|..] == s[|f| + 1..] == b;
    assert a == a[..|f| - |e| - 1] + [a[|f| - |e| - 1]] + a[|f| - |e|..];
    assert f == s[..|f|];
    assert s[..|f|] == e + ":" + middle;
  }

  /** What an event id can end with behind another event id. */
  lemma MiddleIsTagged(e: string, f: string, middle: string)
    returns (text: Option<string>, eventType: string, version: nat)
    requires EventId(e) && EventId(f) && f == e + ":" + middle
    ensures Occurs(eventType, version) && middle == TypeAndVersion(text, eventType, version)
  {
    var p, t, n: nat :| IsEventId(e, p, t, n);
    var q, u, m: nat :| IsEventId(f, q, u, m);
    eventType, version := u, m;
    TypeHasNoColon(u);
    NumeralHasNoColon(n);
    NumeralHasNoColon(m);
    if ':' in middle {
      var head, last := SplitByLastColon(middle);
      assert (e + ":" + head) + ":" + last == (q + ":" + u) + ":" + Print(m);
      SplitAtLastColon(e + ":" + head, last, q + ":" + u, Print(m));
      text := BeforeType(e, head, q, u);
    } else {
      assert e + ":" + middle == (q + ":" + u) + ":" + Print(m);
      SplitAtLastColon(e, middle, q + ":" + u, Print(m));
      assert (p + ":" + t) + ":" + Print(n) == q + ":" + u;
      SplitAtLastColon(p + ":" + t, Print(n), q, u);
      PrintRoundTrip(n);
    }
  }

  lemma BeforeType(e: string, head: string, q: string, u: string) returns (text: Option<string>)
    requires e + ":" + head == q + ":" + u && ':' !in u
    ensures match text case None => head == u case Some(x) => head == x + ":" + u
  {
    if ':' in head {
      var x, v := SplitByLastColon(head);
      assert (e + ":" + x) + ":" + v == q + ":" + u;
      SplitAtLastColon(e + ":" + x, v, q, u);
      text := Some(x);
    } else {
      SplitAtLastColon(e, head, q, u);
      text := None;
    }
  }

  lemma LongerExtends(e: string, a: string, f: string, b: string)
    requires EventId(e) && EventId(f) && e + ":" + a == f + ":" + b && |a| > |b|
    ensures Extends(a, b)
  {
    var middle := Overlap(e, a, f, b);
    var text, t, n := MiddleIsTagged(e, f, middle);
    assert ExtendsWith(a, b, text, t, n);
  }

  /** The payment whose event is named by an event id and what follows it. */
  function OwnerBehind(e: string, text: Option<string>): string {
    match text
    case None => e
    case Some(x) => e + ":" + x
  }

  lemma TaggedBehind(e: string, x: string, eventType: string, version: nat)
    ensures e + ":" + TaggedId(x, eventType, version) == TaggedId(e + ":" + x, eventType, version)
  {
    var tail := ":" + eventType + ":" + Print(version);
    assert TaggedId(x, eventType, version) == x + tail;
    assert e + ":" + (x + tail) == (e + ":" + x) + tail;
  }

  lemma BehindEventId(e: string, text: Option<string>, eventType: string, version: nat)
    ensures e + ":" + TypeAndVersion(text, eventType, version) == TaggedId(OwnerBehind(e, text), eventType, version)
  {
    match text
    case None => assert e + ":" + (eventType + ":" + Print(version)) == TaggedId(e, eventType, version);
    case Some(x) => TaggedBehind(e, x, eventType, version);
  }

  lemma SharedBehind(e: string, middle: string, b: string)
    ensures DeliveryId(e, middle + ":" + b) == DeliveryId(e + ":" + middle, b)
  {
    assert e + ":" + (middle + ":" + b) == (e + ":" + middle) + ":" + b;
    SameDelivery(e, middle + ":" + b, e + ":" + middle, b);
  }

  /** The creation of any payment and an event of a longer payment id share the delivery job id of such endpoints. */
  lemma ExtensionCollides(paymentId: string, a: string, b: string)
    returns (owner: string, eventType: string, version: nat)
    requires Extends(a, b)
    ensures Occurs(eventType, version) && |owner| > |paymentId|
    ensures DeliveryId(TaggedId(paymentId, CREATED, 1), a) == DeliveryId(TaggedId(owner, eventType, version), b)
  {
    var e := TaggedId(paymentId, CREATED, 1);
    var text, t, n: nat :| ExtendsWith(a, b, text, t, n);
    owner, eventType, version := OwnerBehind(e, text), t, n;
    BehindEventId(e, text, t, n);
    SharedBehind(e, TypeAndVersion(text, t, n), b);
  }

  /**
   Two endpoints can come to share a delivery job id, for some two events, exactly when
   one of their ids is the other one behind the type and version of an event.
   */
  lemma {:induction false} CollideIff(a: string, b: string)
    requires a != b
    ensures Collide(a, b) <==> Extends(a, b) || Extends(b, a)
  {
    if Collide(a, b) {
      var e, f :| EventId(e) && EventId(f) && DeliveryId(e, a) == DeliveryId(f, b);
      SameDelivery(e, a, f, b);
      if |a| > |b| {
        LongerExtends(e, a, f, b);
      } else if |b| > |a| {
        LongerExtends(f, b, e, a);
      } else {
        SameLength(e, a, f, b);
      }
    }
    if Extends(a, b) {
      ExtendedCollide(a, b);
    }
    if Extends(b, a) {
      ExtendedCollide(b, a);
      CollideIsSymmetric(b, a);
    }
  }

  lemma ExtendedCollide(a: string, b: string)
    requires Extends(a, b)
    ensures Collide(a, b)
  {
    var owner, eventType, version := ExtensionCollides("p", a, b);
    assert IsEventId(TaggedId("p", CREATED, 1), "p", CREATED, 1);
    assert IsEventId(TaggedId(owner, eventType, version), owner, eventType, version);
  }

  lemma CollideIsSymmetric(a: string, b: string)
    requires Collide(a, b)
    ensures Collide(b, a)
  {
    var e, f :| EventId(e) && EventId(f) && DeliveryId(e, a) == DeliveryId(f, b);
    assert DeliveryId(f, b) == DeliveryId(e, a);
  }

  lemma SameLength(e: string, a: string, f: string, b: string)
    requires e + ":" + a == f + ":" + b && |a| == |b|
    ensures a == b && e == f
  {
    var s := e + ":" + a;
    assert a == s[|e| + 1..] && b == s[|f| + 1..];
    assert e == s[..|e|] && f == s[..|f|];
  }

  /** Unless one endpoint id extends the other, delivery job ids determine event and endpoint. */
  lemma DeliveryIdInjective(e: string, a: string, f: string, b: string)
    requires EventId(e) && EventId(f) && DeliveryId(e, a) == DeliveryId(f, b)
    requires a != b ==> !Extends(a, b) && !Extends(b, a)
    ensures e == f && a == b
  {
    if a != b {
      CollideIff(a, b);
    }
    SameDelivery(e, a, f, b);
    SameLength(e, a, f, b);
  }

  // ----- What a shared id does to the second publication -----

  /**
   When another job already has the id of a delivery, publication goes by the state of that
   job: if it is open and was leased, the whole publication fails; otherwise it is left
   alone if completed, and replaced by the new delivery if it was never leased.
   */
  lemma SharedIdAtPublication(encode: Encoder, jobs: JobStore.Store, ids: seq<string>, event: Event, endpoint: string)
    requires Distinct(ids) && endpoint in ids && DeliveryId(event.id, endpoint) in jobs.rows
    ensures var (id, published) := (DeliveryId(event.id, endpoint), FanOut(encode, jobs, ids, event));
            if jobs.rows[id].status != Jobs.Completed && jobs.rows[id].generation > 0 then published.Err?
            else published.Ok? ==>
                   && id in published.value.rows
                   && if jobs.rows[id].status == Jobs.Completed then published.value.rows[id] == jobs.rows[id]
                      else published.value.rows[id].causationId == event.id
  {
    FanOutOkIff(encode, jobs, ids, event);
    var i :| 0 <= i < |ids| && ids[i] == endpoint;
    assert FanOut(encode, jobs, ids, event).Ok? ==> Schedulable(encode, jobs.rows, ids[i], event);
    if FanOut(encode, jobs, ids, event).Ok? {
      FanOutDelivers(encode, jobs, ids, event, endpoint);
    }
  }
}
