/**
 Every run of the payment runtime: commands, clock movements, new endpoints and
 scheduler activity in any order. The event log always holds the complete history
 of every stored payment, and the payment can be rebuilt from it whenever the
 business clock did not run backwards.
 */
module PaymentEventRuns {
  import opened Outcomes
  import opened Ordering
  import opened Decimal
  import opened Payments
  import PaymentStore
  import opened PaymentEvents
  import JobStore
  import Jobs

  /** `history` records the events of each payment in the order in which they were published. */
  datatype Sys = Sys(db: Db, now: int, history: map<string, seq<Event>>)

  datatype Step =
    | Do(correlationId: string, cmd: Command)
    | Advance(duration: int)
    | RestoreClock(at: int)
    | Register(endpoint: string)
    | Schedule(jobs: JobStore.Store) // whatever the scheduler and its workers do to the jobs

  function Start(at: int): Sys {
    Sys(Db(map[], map[], JobStore.EMPTY, {}), at, map[])
  }

  function Past(s: Sys, id: string): seq<Event> {
    if id in s.history then s.history[id] else []
  }

  ghost function Next(encode: Encoder, s: Sys, step: Step): Sys {
    match step
    case Do(correlationId, cmd) =>
      (match Execute(encode, s.db, s.now, correlationId, cmd)
       case Err(_) => s
       case Ok((db, payment)) =>
         var event := db.events[TaggedId(payment.id, EventTypeOf(cmd), payment.version)];
         Sys(db, s.now, s.history[payment.id := Past(s, payment.id) + [event]]))
    case Advance(duration) => if duration <= 0 then s else s.(now := s.now + duration)
    case RestoreClock(at) => if at == Jobs.NO_TIME then s else s.(now := at)
    case Register(endpoint) => if endpoint == "" then s else s.(db := s.db.(endpoints := s.db.endpoints + {endpoint}))
    case Schedule(jobs) => s.(db := s.db.(jobs := jobs))
  }

  ghost function Run(encode: Encoder, s: Sys, steps: seq<Step>): Sys {
    if steps == [] then s else Next(encode, Run(encode, s, steps[..|steps| - 1]), steps[|steps| - 1])
  }

  // ----- Histories -----

  /** The operation whose result an event of this type announces. */
  predicate Announces(eventType: string, op: Op) {
    match op
    case Authorize => eventType == AUTHORIZED
    case Fail => eventType == FAILED
    case Cancel => eventType == CANCELLED
    case Capture(_) => eventType == CAPTURED
    case Refund(_) => eventType == REFUNDED
  }

  ghost predicate LegalChange(before: PaymentState, after: PaymentState, eventType: string) {
    exists op :: Announces(eventType, op) && Apply(before, op) == Ok(after)
  }

  /** An event on its own: the `n`-th of its payment, with a snapshot that restores. */
  predicate Numbered(id: string, e: Event, n: nat) {
    match e.payload
    case Unreadable => false
    case Snapshot(state) =>
      && ValidateEvent(e) == None
      && e.aggregateId == id && e.version == n && e.id == TaggedId(id, e.eventType, n)
      && state.id == id && state.version == n && Restores(state)
  }

  /** The first state is a creation; every other is a legal transition of the one before. */
  ghost predicate Follows(h: seq<Event>, state: PaymentState, eventType: string) {
    if h == [] then eventType == CREATED && New(state.id, state.amount) == Ok(state)
    else
      match h[|h| - 1].payload
      case Unreadable => false
      case Snapshot(before) => LegalChange(before, state, eventType)
  }

  function LastId(h: seq<Event>): string {
    if h == [] then "" else h[|h| - 1].id
  }

  /** The event is caused by the one before and announces what follows it. */
  ghost predicate Caused(h: seq<Event>, e: Event) {
    match e.payload
    case Unreadable => false
    case Snapshot(state) => e.causationId == LastId(h) && Follows(h, state, e.eventType)
  }

  ghost predicate Chain(id: string, h: seq<Event>) {
    h == [] || (
      var init, e := h[..|h| - 1], h[|h| - 1];
      Chain(id, init) && Numbered(id, e, |h|) && Caused(init, e))
  }

  lemma {:induction false} ChainAt(id: string, h: seq<Event>, i: nat)
    requires Chain(id, h) && i < |h|
    ensures Numbered(id, h[i], i + 1)
  {
    if i < |h| - 1 {
      ChainAt(id, h[..|h| - 1], i);
    }
  }

  /** The log holds exactly these events of the payment. */
  ghost predicate Recorded(events: Log, id: string, h: seq<Event>) {
    && (forall i :: 0 <= i < |h| ==> h[i].id in events && events[h[i].id] == h[i])
    && (forall k ::
         k in events && events[k].aggregateId == id ==> events[k].id == k && HeldAt(h, events[k].version, events[k]))
  }

  predicate HeldAt(h: seq<Event>, version: nat, e: Event) {
    1 <= version <= |h| && h[version - 1] == e
  }

  predicate Represents(row: PaymentState, h: seq<Event>) {
    h != [] && h[|h| - 1].payload == Snapshot(row)
  }

  /** A payment's row and events agree with its history. */
  ghost predicate Kept(db: Db, id: string, h: seq<Event>) {
    match db
    case Db(payments, events, _, _) =>
      id in payments && Chain(id, h) && Recorded(events, id, h) && Represents(payments[id], h)
  }

  ghost predicate AllKept(db: Db, history: map<string, seq<Event>>) {
    match db
    case Db(payments, _, _, _) =>
      payments.Keys == history.Keys && forall id :: id in history ==> Kept(db, id, history[id])
  }

  /** Every event belongs to a payment with a history. */
  ghost predicate Owned(db: Db, history: map<string, seq<Event>>) {
    match db
    case Db(_, events, _, _) => forall k :: k in events ==> events[k].aggregateId in history
  }

  ghost predicate Inv(s: Sys) {
    match s
    case Sys(db, now, history) => AllKept(db, history) && Owned(db, history)
  }

  // ----- The listing of a history -----

  function Keys(h: seq<Event>): seq<EventKey> {
    seq(|h|, i requires 0 <= i < |h| => KeyOf(h[i]))
  }

  lemma ListingHoldsHistory(events: Log, id: string, h: seq<Event>)
    requires Chain(id, h) && Recorded(events, id, h)
    ensures multiset(Keys(h)) == multiset(KeysAmong(events, events.Keys, id))
  {
    HistoryIsNumbered(id, h);
    var keys, all := Keys(h), KeysAmong(events, events.Keys, id);
    forall k | k in all
      ensures k in keys
    {
      assert HeldAt(h, events[k.id].version, events[k.id]);
      assert keys[events[k.id].version - 1] == k;
    }
    forall i | 0 <= i < |h|
      ensures keys[i] in all
    {
      assert Numbered(id, h[i], i + 1);
    }
    forall i, j | 0 <= i < j < |keys|
      ensures keys[i] != keys[j]
    {
      assert Numbered(id, h[i], i + 1) && Numbered(id, h[j], j + 1);
    }
    DistinctHolds(keys, all);
  }

  lemma HistoryIsNumbered(id: string, h: seq<Event>)
    requires Chain(id, h)
    ensures forall i :: 0 <= i < |h| ==> Numbered(id, h[i], i + 1)
  {
    forall i | 0 <= i < |h|
      ensures Numbered(id, h[i], i + 1)
    {
      ChainAt(id, h, i);
    }
  }

  /** The listed rows are the history's events, each at the place that its version names. */
  lemma ListedRows(events: Log, id: string, h: seq<Event>)
    requires Chain(id, h) && Recorded(events, id, h)
    ensures var rows := Rows(events, ListedKeys(events, id));
            && ListByAggregate(events, id) == Ok(rows)
            && |rows| == |h|
            && (forall i ::
                 0 <= i < |rows| ==> HeldAt(h, rows[i].version, rows[i]) && Numbered(id, rows[i], rows[i].version))
  {
    KeyOrder();
    ListingHoldsHistory(events, id, h);
    var keys, all := ListedKeys(events, id), KeysAmong(events, events.Keys, id);
    var rows := Rows(events, keys);
    EachOnce(keys, all);
    EachOnce(Keys(h), all);
    assert |keys| == |all| == |h|;
    forall i | 0 <= i < |rows|
      ensures HeldAt(h, rows[i].version, rows[i]) && Numbered(id, rows[i], rows[i].version)
    {
      assert keys[i] in all;
      RowIsHeld(events, id, h, keys[i]);
    }
    NoFault(id, rows);
  }

  lemma RowIsHeld(events: Log, id: string, h: seq<Event>, key: EventKey)
    requires Chain(id, h) && Recorded(events, id, h) && key in KeysAmong(events, events.Keys, id)
    ensures key.id in events
    ensures var e := events[key.id]; HeldAt(h, e.version, e) && Numbered(id, e, e.version)
  {
    var e := events[key.id];
    assert e.aggregateId == id;
    assert HeldAt(h, e.version, e);
    ChainAt(id, h, e.version - 1);
    assert h[e.version - 1] == e;
  }

  /** Every event of the history is listed. */
  lemma IsListed(events: Log, id: string, h: seq<Event>, n: nat)
    requires Chain(id, h) && Recorded(events, id, h) && n < |h|
    ensures exists i :: 0 <= i < |ListedKeys(events, id)| && Rows(events, ListedKeys(events, id))[i] == h[n]
  {
    KeyOrder();
    ListingHoldsHistory(events, id, h);
    ChainAt(id, h, n);
    var keys, all := ListedKeys(events, id), KeysAmong(events, events.Keys, id);
    EachOnce(keys, all);
    EachOnce(Keys(h), all);
    assert Keys(h)[n] in all;
    var i :| 0 <= i < |keys| && keys[i] == Keys(h)[n];
    assert Rows(events, keys)[i] == h[n];
  }

  lemma {:induction false} NoFault(id: string, rows: seq<Event>)
    requires forall i :: 0 <= i < |rows| ==> Numbered(id, rows[i], rows[i].version)
    ensures FirstFault(rows) == None
  {
    if rows != [] {
      NoFault(id, rows[..|rows| - 1]);
      assert Numbered(id, rows[|rows| - 1], rows[|rows| - 1].version);
    }
  }

  /** The cause of the next event is the last one, whatever the order of the listing. */
  lemma CauseIsLast(events: Log, id: string, h: seq<Event>)
    requires Chain(id, h) && Recorded(events, id, h)
    ensures ListByAggregate(events, id).Ok?
    ensures Cause(ListByAggregate(events, id).value, |h| + 1).0 == LastId(h)
  {
    ListedRows(events, id, h);
    var rows := ListByAggregate(events, id).value;
    CauseIsGreatest(rows, |h| + 1);
    var (cause, best) := Cause(rows, |h| + 1);
    if h == [] {
      assert best == 0;
    } else {
      ChainAt(id, h, |h| - 1);
      IsListed(events, id, h, |h| - 1);
      var i :| 0 <= i < |rows| && rows[i] == h[|h| - 1];
      assert best >= rows[i].version == |h|;
      var j :| 0 <= j < |rows| && rows[j].version == best && rows[j].id == cause;
      assert HeldAt(h, rows[j].version, rows[j]);
    }
  }

  // ----- Every step keeps the histories -----

  /** What a successful publication adds to the log. */
  lemma PublishedEvent(encode: Encoder, db: Db, at: int, correlationId: string, payment: PaymentState,
                       eventType: string)
    requires Publish(encode, db, at, correlationId, payment, eventType).Ok?
    ensures var after := Publish(encode, db, at, correlationId, payment, eventType).value;
            && ListByAggregate(db.events, payment.id).Ok?
            && var cause := Cause(ListByAggregate(db.events, payment.id).value, payment.version).0;
            && var event := NewEvent(payment, eventType, at, correlationId, cause, db.jobs.sequence + 1);
            && ValidateEvent(event) == None && event.id !in db.events
            && after.events == db.events[event.id := event]
            && after.payments == db.payments && after.endpoints == db.endpoints
  {
  }

  lemma RowFacts(s: Sys, id: string)
    requires Inv(s) && id in s.db.payments
    ensures Represents(s.db.payments[id], s.history[id]) && s.db.payments[id].id == id
    ensures s.db.payments[id].version == |s.history[id]| && Restores(s.db.payments[id])
  {
    var h := s.history[id];
    assert Kept(s.db, id, h);
    ChainAt(id, h, |h| - 1);
  }

  /** The payment that a command saves restores, and is the next version of a legal history. */
  lemma SavedPayment(payments: PaymentStore.Table, cmd: Command, h: seq<Event>)
    requires PaymentAfter(payments, cmd).Ok? && PaymentStore.Save(payments, PaymentAfter(payments, cmd).value).Ok?
    requires cmd.id in payments ==>
               Represents(payments[cmd.id], h) && payments[cmd.id].id == cmd.id && payments[cmd.id].version == |h| &&
                 Restores(payments[cmd.id])
    requires cmd.id !in payments ==> h == []
    ensures var payment := PaymentAfter(payments, cmd).value;
            && payment.id == cmd.id && payment.version == |h| + 1 && Restores(payment)
            && PaymentStore.Save(payments, payment) == Ok(payments[cmd.id := payment])
            && Follows(h, payment, EventTypeOf(cmd))
  {
    if !cmd.CreatePayment? {
      var found, op := payments[cmd.id], OpOf(cmd).value;
      VersionMoves(found, op);
      TransitionKeepsValid(found, op);
      assert Announces(EventTypeOf(cmd), op);
    }
  }

  /** The event that a successful command published. */
  lemma ExecutedEvent(encode: Encoder, db: Db, at: int, correlationId: string, cmd: Command)
    returns (payment: PaymentState, event: Event)
    requires Execute(encode, db, at, correlationId, cmd).Ok?
    ensures PaymentAfter(db.payments, cmd) == Ok(payment) && PaymentStore.Save(db.payments, payment).Ok?
    ensures ListByAggregate(db.events, payment.id).Ok?
    ensures var cause := Cause(ListByAggregate(db.events, payment.id).value, payment.version).0;
            event == NewEvent(payment, EventTypeOf(cmd), at, correlationId, cause, db.jobs.sequence + 1)
    ensures ValidateEvent(event) == None && event.id !in db.events
    ensures var (after, changed) := Execute(encode, db, at, correlationId, cmd).value;
            && changed == payment && after.events == db.events[event.id := event]
            && after.payments == PaymentStore.Save(db.payments, payment).value
  {
    payment := PaymentAfter(db.payments, cmd).value;
    var saved := db.(payments := PaymentStore.Save(db.payments, payment).value);
    PublishedEvent(encode, saved, at, correlationId, payment, EventTypeOf(cmd));
    var cause := Cause(ListByAggregate(db.events, payment.id).value, payment.version).0;
    event := NewEvent(payment, EventTypeOf(cmd), at, correlationId, cause, db.jobs.sequence + 1);
  }

  /** What a successful command adds to a runtime that keeps its histories. */
  lemma DoAppends(encode: Encoder, s: Sys, correlationId: string, cmd: Command) returns (event: Event)
    requires Inv(s) && Execute(encode, s.db, s.now, correlationId, cmd).Ok?
    ensures Numbered(cmd.id, event, |Past(s, cmd.id)| + 1) && Caused(Past(s, cmd.id), event) && event.id !in s.db.events
    ensures event.occurredAt == s.now
    ensures Appended(s, Next(encode, s, Do(correlationId, cmd)), cmd.id, event)
  {
    var payment;
    payment, event := ExecutedEvent(encode, s.db, s.now, correlationId, cmd);
    if cmd.id in s.db.payments {
      RowFacts(s, cmd.id);
    }
    SavedPayment(s.db.payments, cmd, Past(s, cmd.id));
    UnknownHasNoEvents(s, cmd.id);
    CauseIsLast(s.db.events, cmd.id, Past(s, cmd.id));
    assert Next(encode, s, Do(correlationId, cmd)).history == s.history[cmd.id := Past(s, cmd.id) + [event]];
  }

  predicate Appended(s: Sys, t: Sys, id: string, event: Event) {
    match event.payload
    case Unreadable => false
    case Snapshot(payment) =>
      && t.now == s.now
      && t.db.events == s.db.events[event.id := event]
      && t.db.payments == s.db.payments[id := payment]
      && t.history == s.history[id := Past(s, id) + [event]]
  }

  lemma AppendKeepsInv(s: Sys, t: Sys, id: string, event: Event)
    requires Inv(s) && Appended(s, t, id, event) && event.id !in s.db.events
    requires Numbered(id, event, |Past(s, id)| + 1) && Caused(Past(s, id), event)
    ensures Inv(t)
  {
    AppendedMeans(s, t, id, event);
    AppendKeepsOwn(s, t, id, event);
    InvFromParts(s, t, id, Past(s, id) + [event], event);
  }

  lemma InvFromParts(s: Sys, t: Sys, id: string, h: seq<Event>, event: Event)
    requires Inv(s) && Kept(t.db, id, h) && event.id !in s.db.events && event.aggregateId == id
    requires t.db.events == s.db.events[event.id := event] && t.history == s.history[id := h]
    requires id in t.db.payments && t.db.payments == s.db.payments[id := t.db.payments[id]]
    ensures Inv(t)
  {
    AppendKeepsAll(s.db, t.db, s.history, id, h, event);
    StillOwned(s.db, t.db, s.history, t.history, event);
  }

  lemma AppendedMeans(s: Sys, t: Sys, id: string, event: Event)
    requires Appended(s, t, id, event)
    ensures t.db.events == s.db.events[event.id := event] && t.history == s.history[id := Past(s, id) + [event]]
    ensures id in t.db.payments && t.db.payments == s.db.payments[id := t.db.payments[id]] &&
            event.payload == Snapshot(t.db.payments[id])
  {
  }

  lemma AppendKeepsOwn(s: Sys, t: Sys, id: string, event: Event)
    requires Inv(s) && Appended(s, t, id, event) && event.id !in s.db.events
    requires Numbered(id, event, |Past(s, id)| + 1) && Caused(Past(s, id), event)
    ensures Kept(t.db, id, Past(s, id) + [event]) && event.aggregateId == id
  {
    AppendedMeans(s, t, id, event);
    UnknownHasNoEvents(s, id);
    NowKept(s.db, t.db, id, Past(s, id), event);
  }

  lemma AppendKeepsAll(db: Db, after: Db, history: map<string, seq<Event>>, id: string, h: seq<Event>, event: Event)
    requires AllKept(db, history) && Kept(after, id, h) && event.id !in db.events && event.aggregateId == id
    requires after.events == db.events[event.id := event] && id in after.payments
    requires after.payments == db.payments[id := after.payments[id]]
    ensures AllKept(after, history[id := h])
  {
    OthersStillKept(db, after, history, event);
    JoinedKept(after, history, id, h);
  }

  lemma DoKeepsInv(encode: Encoder, s: Sys, correlationId: string, cmd: Command)
    requires Inv(s) && Execute(encode, s.db, s.now, correlationId, cmd).Ok?
    ensures Inv(Next(encode, s, Do(correlationId, cmd)))
  {
    var event := DoAppends(encode, s, correlationId, cmd);
    AppendKeepsInv(s, Next(encode, s, Do(correlationId, cmd)), cmd.id, event);
  }

  /** A payment without a history has no events. */
  lemma UnknownHasNoEvents(s: Sys, id: string)
    requires Inv(s)
    ensures Chain(id, Past(s, id)) && Recorded(s.db.events, id, Past(s, id))
  {
    if id in s.history {
      assert Kept(s.db, id, s.history[id]);
    }
  }

  /** Appending an event to one payment's history leaves the others alone. */
  lemma OthersStillKept(db: Db, after: Db, history: map<string, seq<Event>>, event: Event)
    requires AllKept(db, history) && event.id !in db.events && after.events == db.events[event.id := event]
    requires event.aggregateId in after.payments &&
             after.payments == db.payments[event.aggregateId := after.payments[event.aggregateId]]
    ensures forall id :: id in history && id != event.aggregateId ==> Kept(after, id, history[id])
  {
    forall id | id in history && id != event.aggregateId
      ensures Kept(after, id, history[id])
    {
      StillKept(db, after, id, history[id], event);
    }
  }

  lemma JoinedKept(db: Db, history: map<string, seq<Event>>, id: string, h: seq<Event>)
    requires Kept(db, id, h) && forall other :: other in history && other != id ==> Kept(db, other, history[other])
    requires db.payments.Keys == history.Keys + {id}
    ensures AllKept(db, history[id := h])
  {
  }

  lemma StillOwned(db: Db, after: Db, history: map<string, seq<Event>>, longer: map<string, seq<Event>>, event: Event)
    requires Owned(db, history) && after.events == db.events[event.id := event]
    requires longer.Keys == history.Keys + {event.aggregateId}
    ensures Owned(after, longer)
  {
  }

  lemma NowKept(db: Db, after: Db, id: string, h: seq<Event>, event: Event)
    requires Chain(id, h) && Recorded(db.events, id, h) && Numbered(id, event, |h| + 1) && Caused(h, event) &&
             event.id !in db.events
    requires id in after.payments && event.payload == Snapshot(after.payments[id]) &&
             after.events == db.events[event.id := event]
    ensures Kept(after, id, h + [event])
  {
    assert (h + [event])[..|h|] == h;
    NowRecorded(db.events, id, h, event);
  }

  lemma StillKept(db: Db, after: Db, id: string, h: seq<Event>, event: Event)
    requires Kept(db, id, h) && event.id !in db.events && event.aggregateId != id
    requires id in after.payments && after.payments[id] == db.payments[id] &&
             after.events == db.events[event.id := event]
    ensures Kept(after, id, h)
  {
    StillRecorded(db.events, id, h, event);
  }

  lemma NowRecorded(events: Log, id: string, h: seq<Event>, event: Event)
    requires Recorded(events, id, h) && event.id !in events && event.aggregateId == id && event.version == |h| + 1
    ensures Recorded(events[event.id := event], id, h + [event])
  {
    forall k | k in events && events[k].aggregateId == id
      ensures events[k].id == k && HeldAt(h + [event], events[k].version, events[k])
    {
      assert HeldAt(h, events[k].version, events[k]);
    }
  }

  lemma StillRecorded(events: Log, id: string, h: seq<Event>, event: Event)
    requires Recorded(events, id, h) && event.id !in events && event.aggregateId != id
    ensures Recorded(events[event.id := event], id, h)
  {
  }

  lemma StepKeepsInv(encode: Encoder, s: Sys, step: Step)
    requires Inv(s)
    ensures Inv(Next(encode, s, step))
  {
    if step.Do? && Execute(encode, s.db, s.now, step.correlationId, step.cmd).Ok? {
      DoKeepsInv(encode, s, step.correlationId, step.cmd);
    }
  }

  lemma {:induction false} RunKeepsInv(encode: Encoder, at: int, steps: seq<Step>)
    ensures Inv(Run(encode, Start(at), steps))
  {
    if steps != [] {
      RunKeepsInv(encode, at, steps[..|steps| - 1]);
      StepKeepsInv(encode, Run(encode, Start(at), steps[..|steps| - 1]), steps[|steps| - 1]);
    }
  }

  // ----- Theorems -----

  /**
   At every moment the log holds exactly one event per version 1..n of a payment at
   version n: the first announces its creation, each later one is caused by the one
   before and announces a legal transition, and the last carries the stored payment.
   */
  lemma {:induction false} LogIsComplete(encode: Encoder, at: int, steps: seq<Step>, id: string)
    requires id in Run(encode, Start(at), steps).db.payments
    ensures var s := Run(encode, Start(at), steps);
            && id in s.history
            && Chain(id, s.history[id]) && Recorded(s.db.events, id, s.history[id])
            && |s.history[id]| == s.db.payments[id].version
            && Represents(s.db.payments[id], s.history[id])
  {
    RunKeepsInv(encode, at, steps);
    RowFacts(Run(encode, Start(at), steps), id);
    assert Kept(Run(encode, Start(at), steps).db, id, Run(encode, Start(at), steps).history[id]);
  }

  predicate InTimeOrder(h: seq<Event>) {
    forall i, j :: 0 <= i < j < |h| ==> h[i].occurredAt <= h[j].occurredAt
  }

  lemma OrderedHistoryIsListed(events: Log, id: string, h: seq<Event>)
    requires Chain(id, h) && Recorded(events, id, h) && InTimeOrder(h)
    ensures ListByAggregate(events, id) == Ok(h)
  {
    ListedRows(events, id, h);
    HistoryIsNumbered(id, h);
    KeyOrder();
    var keys := Keys(h);
    forall i, j | 0 <= i < j < |keys|
      ensures KeyLeq(keys[i], keys[j])
    {
      assert Numbered(id, h[i], i + 1) && Numbered(id, h[j], j + 1);
    }
    ListingHoldsHistory(events, id, h);
    ListingIsUnique(keys, KeysAmong(events, events.Keys, id), KeyLeq);
    assert Rows(events, ListedKeys(events, id)) == h;
  }

  lemma {:induction false} OnlyOutOfPlace(id: string, rows: seq<Event>)
    requires forall i :: 0 <= i < |rows| ==> Numbered(id, rows[i], rows[i].version)
    ensures HistoryFault(rows) == None || HistoryFault(rows) == Some(IncompleteHistory)
  {
    if rows != [] {
      OnlyOutOfPlace(id, rows[..|rows| - 1]);
      assert Numbered(id, rows[|rows| - 1], rows[|rows| - 1].version) && Numbered(id, rows[0], rows[0].version);
    }
  }

  lemma FaultlessListingIsOrdered(events: Log, id: string, h: seq<Event>)
    requires Chain(id, h) && Recorded(events, id, h)
    requires ListByAggregate(events, id).Ok? && HistoryFault(ListByAggregate(events, id).value) == None
    ensures InTimeOrder(h)
  {
    ListedRows(events, id, h);
    var keys, rows := ListedKeys(events, id), ListByAggregate(events, id).value;
    HistoryFaultIff(rows);
    forall i | 0 <= i < |rows|
      ensures rows[i] == h[i] && keys[i].occurredAt == h[i].occurredAt
    {
      assert Fault(rows[i], rows[0].aggregateId, i + 1) == None;
      assert HeldAt(h, rows[i].version, rows[i]);
      KeyIsTheRows(events, id, i);
    }
    forall i, j | 0 <= i < j < |h|
      ensures h[i].occurredAt <= h[j].occurredAt
    {
      assert rows[i] == h[i] && rows[j] == h[j];
      KeyOrder();
      assert KeyLeq(keys[i], keys[j]);
    }
  }

  lemma KeyIsTheRows(events: Log, id: string, i: nat)
    requires i < |ListedKeys(events, id)|
    ensures ListedKeys(events, id)[i].occurredAt == Rows(events, ListedKeys(events, id))[i].occurredAt
  {
    KeyOrder();
    EachOnce(ListedKeys(events, id), KeysAmong(events, events.Keys, id));
    assert ListedKeys(events, id)[i] in KeysAmong(events, events.Keys, id);
  }

  /** What reconstruction makes of the listed events of a recorded history. */
  lemma {:induction false} RebuildHistory(events: Log, id: string, h: seq<Event>)
    requires Chain(id, h) && Recorded(events, id, h) && h != []
    ensures ListByAggregate(events, id).Ok?
    ensures Reconstructed(ListByAggregate(events, id).value)
         == if InTimeOrder(h) then Ok(h[|h| - 1].payload.state) else Err(IncompleteHistory)
  {
    ListedRows(events, id, h);
    var rows := ListByAggregate(events, id).value;
    OnlyOutOfPlace(id, rows);
    if HistoryFault(rows) == None {
      FaultlessListingIsOrdered(events, id, h);
    }
    if InTimeOrder(h) {
      OrderedHistoryIsListed(events, id, h);
      HistoryIsNumbered(id, h);
      HistoryFaultIff(h);
      forall i | 0 <= i < |h|
        ensures Fault(h[i], h[0].aggregateId, i + 1) == None
      {
        assert Numbered(id, h[i], i + 1) && Numbered(id, h[0], 1);
      }
    }
  }

  /**
   A stored payment is rebuilt from its listed events exactly when the business clock
   did not run backwards between them; if it did, reconstruction reports an incomplete
   history.
   */
  lemma {:induction false} RebuiltIffClockMovedForward(encode: Encoder, at: int, steps: seq<Step>, id: string)
    requires id in Run(encode, Start(at), steps).db.payments
    ensures var s := Run(encode, Start(at), steps);
            && id in s.history && ListByAggregate(s.db.events, id).Ok?
            && Reconstructed(ListByAggregate(s.db.events, id).value)
            == if InTimeOrder(s.history[id]) then Ok(s.db.payments[id]) else Err(IncompleteHistory)
  {
    RunKeepsInv(encode, at, steps);
    var s := Run(encode, Start(at), steps);
    RowFacts(s, id);
    assert Kept(s.db, id, s.history[id]);
    RebuildHistory(s.db.events, id, s.history[id]);
  }

  predicate ClockOnlyAdvances(steps: seq<Step>) {
    forall i :: 0 <= i < |steps| ==> !steps[i].RestoreClock?
  }

  predicate UpToNow(h: seq<Event>, now: int) {
    InTimeOrder(h) && forall i :: 0 <= i < |h| ==> h[i].occurredAt <= now
  }

  lemma LaterEventKeepsTimeOrder(h: seq<Event>, e: Event, now: int)
    requires UpToNow(h, now) && e.occurredAt == now
    ensures UpToNow(h + [e], now)
  {
  }

  lemma AppendKeepsTimeOrder(s: Sys, t: Sys, changed: string, event: Event, id: string)
    requires UpToNow(Past(s, id), s.now) && Appended(s, t, changed, event) && event.occurredAt == s.now
    ensures UpToNow(Past(t, id), t.now)
  {
    if id == changed {
      LaterEventKeepsTimeOrder(Past(s, id), event, s.now);
    } else {
      assert Past(t, id) == Past(s, id);
    }
  }

  lemma {:induction false} StepKeepsTimeOrder(encode: Encoder, s: Sys, step: Step, id: string)
    requires Inv(s) && !step.RestoreClock? && UpToNow(Past(s, id), s.now)
    ensures UpToNow(Past(Next(encode, s, step), id), Next(encode, s, step).now)
  {
    if step.Do? {
      if Execute(encode, s.db, s.now, step.correlationId, step.cmd).Ok? {
        var event := DoAppends(encode, s, step.correlationId, step.cmd);
        AppendKeepsTimeOrder(s, Next(encode, s, step), step.cmd.id, event, id);
      }
    } else {
      assert Past(Next(encode, s, step), id) == Past(s, id);
    }
  }

  lemma {:induction false} AdvancingRunIsInTimeOrder(encode: Encoder, at: int, steps: seq<Step>, id: string)
    requires ClockOnlyAdvances(steps)
    ensures UpToNow(Past(Run(encode, Start(at), steps), id), Run(encode, Start(at), steps).now)
  {
    if steps != [] {
      var init, last := steps[..|steps| - 1], steps[|steps| - 1];
      assert steps[|steps| - 1] == last;
      AdvancingRunIsInTimeOrder(encode, at, init, id);
      RunKeepsInv(encode, at, init);
      StepKeepsTimeOrder(encode, Run(encode, Start(at), init), last, id);
    }
  }

  /** When the clock only advances, every stored payment is what its events rebuild. */
  lemma {:induction false} RebuiltWhenClockOnlyAdvances(encode: Encoder, at: int, steps: seq<Step>, id: string)
    requires ClockOnlyAdvances(steps) && id in Run(encode, Start(at), steps).db.payments
    ensures var s := Run(encode, Start(at), steps);
            && ListByAggregate(s.db.events, id).Ok?
            && Reconstructed(ListByAggregate(s.db.events, id).value) == Ok(s.db.payments[id])
  {
    AdvancingRunIsInTimeOrder(encode, at, steps, id);
    RebuiltIffClockMovedForward(encode, at, steps, id);
  }

  /** A delivery for every endpoint, and no other change of a job. */
  ghost predicate Notified(encode: Encoder, endpoints: set<string>, before: map<string, Jobs.JobState>,
                           after: map<string, Jobs.JobState>, event: Event) {
    && (forall endpoint :: endpoint in endpoints ==> Delivered(encode, before, after, endpoint, event))
    && (forall k :: k in after && (forall endpoint :: endpoint in endpoints ==> k != DeliveryId(event.id, endpoint)) ==>
          k in before && after[k] == before[k])
  }

  lemma SortedFanOut(encode: Encoder, endpoints: set<string>, jobs: JobStore.Store, event: Event)
    requires FanOut(encode, jobs, SortedEndpoints(endpoints), event).Ok?
    ensures Notified(encode, endpoints, jobs.rows, FanOut(encode, jobs, SortedEndpoints(endpoints), event).value.rows,
            event)
  {
    var ids := SortedEndpoints(endpoints);
    var after := FanOut(encode, jobs, ids, event).value.rows;
    assert multiset(ids) == multiset(endpoints) by {
      LexIsTotalOrder();
    }
    EachOnce(ids, endpoints);
    forall endpoint | endpoint in endpoints
      ensures Delivered(encode, jobs.rows, after, endpoint, event)
    {
      FanOutDelivers(encode, jobs, ids, event, endpoint);
    }
    OthersUntouched(encode, endpoints, ids, jobs, event);
  }

  lemma OthersUntouched(encode: Encoder, endpoints: set<string>, ids: seq<string>, jobs: JobStore.Store, event: Event)
    requires FanOut(encode, jobs, ids, event).Ok? && PaymentEvents.Distinct(ids) &&
             forall x :: x in ids <==> x in endpoints
    ensures var after := FanOut(encode, jobs, ids, event).value.rows;
            forall k ::
              k in after && (forall endpoint :: endpoint in endpoints ==> k != DeliveryId(event.id, endpoint)) ==>
                k in jobs.rows && after[k] == jobs.rows[k]
  {
    var after := FanOut(encode, jobs, ids, event).value.rows;
    FanOutCoversEndpoints(encode, jobs, ids, event);
    forall k | k in after && (forall endpoint :: endpoint in endpoints ==> k != DeliveryId(event.id, endpoint))
      ensures k in jobs.rows && after[k] == jobs.rows[k]
    {
      assert forall i :: 0 <= i < |ids| ==> ids[i] in endpoints;
      UntouchedRow(jobs.rows, after, event.id, ids, k);
    }
  }

  lemma PublishNotifies(encode: Encoder, db: Db, at: int, correlationId: string, payment: PaymentState,
                        eventType: string)
    requires Publish(encode, db, at, correlationId, payment, eventType).Ok?
    ensures var after := Publish(encode, db, at, correlationId, payment, eventType).value;
            Notified(encode, db.endpoints, db.jobs.rows, after.jobs.rows,
              after.events[TaggedId(payment.id, eventType, payment.version)].(sequence := 0))
  {
    PublishedEvent(encode, db, at, correlationId, payment, eventType);
    var cause := Cause(ListByAggregate(db.events, payment.id).value, payment.version).0;
    var jobs := db.jobs.(sequence := db.jobs.sequence + 1);
    SortedFanOut(encode, db.endpoints, jobs, NewEvent(payment, eventType, at, correlationId, cause, 0));
  }

  /**
   A successful command leaves a delivery job for every endpoint, new ones pending with
   the event as their cause, and touches no other job. A failed one changes nothing.
   */
  lemma EveryEndpointIsNotified(encode: Encoder, s: Sys, correlationId: string, cmd: Command)
    ensures match Execute(encode, s.db, s.now, correlationId, cmd)
            case Err(_) => Next(encode, s, Do(correlationId, cmd)) == s
            case Ok((db, payment)) =>
              var event := db.events[TaggedId(payment.id, EventTypeOf(cmd), payment.version)].(sequence := 0);
              Notified(encode, s.db.endpoints, s.db.jobs.rows, db.jobs.rows, event)
  {
    if Execute(encode, s.db, s.now, correlationId, cmd).Ok? {
      var payment := PaymentAfter(s.db.payments, cmd).value;
      var saved := s.db.(payments := PaymentStore.Save(s.db.payments, payment).value);
      PublishNotifies(encode, saved, s.now, correlationId, payment, EventTypeOf(cmd));
    }
  }
}
