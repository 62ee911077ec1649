/**
 Business events of payments: the event log (internal/payment/adapters/sqlite/event_log.go),
 the publisher that appends an event and schedules its webhook deliveries
 (internal/app/payment_events.go), the payment commands that run both in one transaction
 (internal/payment/application), and the reconstruction of a payment from its events.
 */
module PaymentEvents {
  import opened Outcomes
  import opened Ordering
  import opened Decimal
  import opened Payments
  import opened PaymentStore
  import Jobs
  import JobStore

  const CREATED := "payment.created"
  const AUTHORIZED := "payment.authorized"
  const FAILED := "payment.failed"
  const CANCELLED := "payment.cancelled"
  const CAPTURED := "payment.captured"
  const REFUNDED := "payment.refunded"
  const DELIVERY_JOB_TYPE := "webhook.delivery"

  predicate ValidType(eventType: string) {
    || eventType == CREATED || eventType == AUTHORIZED || eventType == FAILED
    || eventType == CANCELLED || eventType == CAPTURED || eventType == REFUNDED
  }

  /** The payload of an event: an encoded snapshot of the payment, or text that does not decode. */
  datatype Payload = Snapshot(state: PaymentState) | Unreadable

  datatype Event = Event(
    id: string,
    aggregateId: string,
    eventType: string,
    occurredAt: int,
    version: nat,
    correlationId: string,
    causationId: string,
    payload: Payload,
    sequence: nat)

  datatype EventError =
    | InvalidEventId
    | InvalidAggregateId
    | InvalidEventType
    | InvalidEventTimestamp
    | InvalidAggregateVersion

  function ValidateEvent(e: Event): Option<EventError> {
    if e.id == "" then Some(InvalidEventId)
    else if e.aggregateId == "" then Some(InvalidAggregateId)
    else if !ValidType(e.eventType) then Some(InvalidEventType)
    else if e.occurredAt == Jobs.NO_TIME then Some(InvalidEventTimestamp)
    else if e.version == 0 then Some(InvalidAggregateVersion)
    else None
  }

  // ----- The event log -----

  type Log = map<string, Event>

  /** What events are listed by: time, then version, then id. */
  datatype EventKey = EventKey(occurredAt: int, version: nat, id: string)

  predicate KeyLeq(a: EventKey, b: EventKey) {
    || a.occurredAt < b.occurredAt
    || (a.occurredAt == b.occurredAt && (a.version < b.version || (a.version == b.version && LexLeq(a.id, b.id))))
  }

  lemma KeyOrder()
    ensures TotalOrder(KeyLeq)
  {
    LexIsTotalOrder();
    forall a, b
      ensures KeyLeq(a, b) || KeyLeq(b, a)
      ensures KeyLeq(a, b) && KeyLeq(b, a) ==> a == b
    {
      assert LexLeq(a.id, b.id) || LexLeq(b.id, a.id);
    }
    forall a, b, c | KeyLeq(a, b) && KeyLeq(b, c)
      ensures KeyLeq(a, c)
    {
      assert LexLeq(a.id, b.id) && LexLeq(b.id, c.id) ==> LexLeq(a.id, c.id);
    }
  }

  function KeyOf(e: Event): EventKey {
    EventKey(e.occurredAt, e.version, e.id)
  }

  /** The keys of one aggregate's events among some rows of the log. */
  function KeysAmong(events: Log, ids: set<string>, aggregateId: string): set<EventKey> {
    set id | id in ids && id in events && events[id].aggregateId == aggregateId ::
        EventKey(events[id].occurredAt, events[id].version, id)
  }

  ghost function ListedKeys(events: Log, aggregateId: string): (keys: seq<EventKey>)
    ensures forall i :: 0 <= i < |keys| ==> keys[i].id in events
  {
    KeyOrder();
    var all := KeysAmong(events, events.Keys, aggregateId);
    var keys := Listing(all, KeyLeq);
    EachOnce(keys, all);
    assert forall i :: 0 <= i < |keys| ==> keys[i] in all;
    keys
  }

  function Rows(events: Log, keys: seq<EventKey>): (rows: seq<Event>)
    requires forall i :: 0 <= i < |keys| ==> keys[i].id in events
    ensures |rows| == |keys| && forall i :: 0 <= i < |keys| ==> rows[i] == events[keys[i].id]
  {
    seq(|keys|, i requires 0 <= i < |keys| => events[keys[i].id])
  }

  function FirstFault(rows: seq<Event>): Option<EventError> {
    if rows == [] then None
    else
      match FirstFault(rows[..|rows| - 1])
      case Some(e) => Some(e)
      case None => ValidateEvent(rows[|rows| - 1])
  }

  /** One aggregate's events by time, version and id; a stored row that is not a valid event fails the listing. */
  ghost function ListByAggregate(events: Log, aggregateId: string): Result<seq<Event>, EventError> {
    var rows := Rows(events, ListedKeys(events, aggregateId));
    match FirstFault(rows)
    case Some(e) => Err(e)
    case None => Ok(rows)
  }

  // ----- Publishing -----

  datatype PublishError =
    | InvalidEvent(reason: EventError)
    | EventAlreadyExists
    | InvalidDeliveryPayload
    | InvalidJob(cause: Jobs.JobError)
    | DeliveryNotScheduled(refusal: JobStore.StoreError)

  /** The search of the publishing loop: the candidate of the greatest version below `version`, and that version. */
  function Cause(previous: seq<Event>, version: nat): (string, nat) {
    if previous == [] then ("", 0)
    else
      var best, candidate := Cause(previous[..|previous| - 1], version), previous[|previous| - 1];
      if candidate.version < version && candidate.version > best.1 then (candidate.id, candidate.version) else best
  }

  function NewEvent(payment: PaymentState, eventType: string, at: int, correlationId: string, causationId: string,
                    sequence: nat): Event {
    Event(TaggedId(payment.id, eventType, payment.version), payment.id, eventType, at, payment.version,
          correlationId, causationId, Snapshot(payment), sequence)
  }

  function DeliveryId(eventId: string, endpoint: string): string {
    "webhook:" + eventId + ":" + endpoint
  }

  /** How a delivery's payload is encoded for an endpoint and an event. */
  type Encoder = (string, Event) -> Jobs.Bytes

  function NewDelivery(encode: Encoder, endpoint: string, event: Event): Result<Jobs.JobState, Jobs.JobError> {
    Jobs.NewJob(DeliveryId(event.id, endpoint), DELIVERY_JOB_TYPE, encode(endpoint, event), event.occurredAt,
      event.aggregateId, event.id)
  }

  function ScheduleDelivery(encode: Encoder, jobs: JobStore.Store, endpoint: string,
                            event: Event): Result<JobStore.Store, PublishError> {
    if endpoint == "" then Err(InvalidDeliveryPayload)
    else
      match NewDelivery(encode, endpoint, event)
      case Err(e) => Err(InvalidJob(e))
      case Ok(job) =>
        match JobStore.Save(jobs, job)
        case (after, None) => Ok(after)
        case (_, Some(e)) => Err(DeliveryNotScheduled(e))
  }

  function FanOut(encode: Encoder, jobs: JobStore.Store, endpoints: seq<string>,
                  event: Event): Result<JobStore.Store, PublishError> {
    if endpoints == [] then Ok(jobs)
    else
      match FanOut(encode, jobs, endpoints[..|endpoints| - 1], event)
      case Err(e) => Err(e)
      case Ok(before) => ScheduleDelivery(encode, before, endpoints[|endpoints| - 1], event)
  }

  /** The committed tables that a payment command reads and writes. */
  datatype Db = Db(payments: Table, events: Log, jobs: JobStore.Store, endpoints: set<string>)

  ghost function SortedEndpoints(endpoints: set<string>): seq<string> {
    LexIsTotalOrder();
    Listing(endpoints, LexLeq)
  }

  function Append(db: Db, event: Event): Result<Db, PublishError> {
    if ValidateEvent(event).Some? then Err(InvalidEvent(ValidateEvent(event).value))
    else if event.id in db.events then Err(EventAlreadyExists)
    else
      var sequence := db.jobs.sequence + 1;
      Ok(db.(events := db.events[event.id := event.(sequence := sequence)], jobs := db.jobs.(sequence := sequence)))
  }

  ghost function Publish(encode: Encoder, db: Db, at: int, correlationId: string, payment: PaymentState,
                         eventType: string): (r: Result<Db, PublishError>)
    ensures r.Ok? ==> TaggedId(payment.id, eventType, payment.version) in r.value.events
  {
    match ListByAggregate(db.events, payment.id)
    case Err(e) => Err(InvalidEvent(e))
    case Ok(previous) =>
      var event := NewEvent(payment, eventType, at, correlationId, Cause(previous, payment.version).0, 0);
      match Append(db, event)
      case Err(e) => Err(e)
      case Ok(appended) =>
        match FanOut(encode, appended.jobs, SortedEndpoints(db.endpoints), event)
        case Err(e) => Err(e)
        case Ok(jobs) => Ok(appended.(jobs := jobs))
  }

  /**
   The publishing loop finds the event of the greatest version below the payment's
   own, and no cause exactly when there is none.
   */
  lemma {:induction false} CauseIsGreatest(previous: seq<Event>, version: nat)
    ensures var (id, best) := Cause(previous, version);
            && (forall i :: 0 <= i < |previous| && previous[i].version < version ==> previous[i].version <= best)
            && (best == 0 ==> id == "")
            && (best > 0 ==> best < version)
            && (best > 0 ==> exists i :: 0 <= i < |previous| && previous[i].version == best && previous[i].id == id)
  {
    if previous != [] {
      var init, last := previous[..|previous| - 1], |previous| - 1;
      CauseIsGreatest(init, version);
      var (id, best) := Cause(init, version);
      if best > 0 {
        var i :| 0 <= i < |init| && init[i].version == best && init[i].id == id;
        assert previous[i].version == best && previous[i].id == id;
      }
      assert previous[last].version == previous[last].version;
    }
  }

  // ----- Deliveries -----

  lemma DeliveryIdOfOneEvent(eventId: string, a: string, b: string)
    requires DeliveryId(eventId, a) == DeliveryId(eventId, b)
    ensures a == b
  {
    var n := |"webhook:" + eventId + ":"|;
    assert a == DeliveryId(eventId, a)[n..] && b == DeliveryId(eventId, b)[n..];
  }

  /** Scheduling a delivery succeeds unless a worker has already leased an open job of its id. */
  predicate Schedulable(encode: Encoder, rows: map<string, Jobs.JobState>, endpoint: string, event: Event) {
    var id := DeliveryId(event.id, endpoint);
    && endpoint != "" && NewDelivery(encode, endpoint, event).Ok?
    && (id in rows ==> rows[id].status == Jobs.Completed || rows[id].generation == 0)
  }

  /**
   The endpoint has its delivery job: a completed job of its id is left as it was, any
   other becomes the new pending delivery.
   */
  predicate Delivered(encode: Encoder, before: map<string, Jobs.JobState>, after: map<string, Jobs.JobState>,
                      endpoint: string, event: Event) {
    var id := DeliveryId(event.id, endpoint);
    && id in after
    && if id in before && before[id].status == Jobs.Completed then after[id] == before[id]
       else NewDelivery(encode, endpoint, event) == Ok(after[id])
  }

  /** Nothing changes but the jobs of these ids. */
  ghost predicate OnlyDeliveries(before: map<string, Jobs.JobState>, after: map<string, Jobs.JobState>,
                                 eventId: string, endpoints: seq<string>) {
    && (forall k :: k in before ==> k in after)
    && (forall k ::
         k in after && (forall i :: 0 <= i < |endpoints| ==> k != DeliveryId(eventId, endpoints[i])) ==>
           k in before && after[k] == before[k])
  }

  /** Nothing changes but one job. */
  ghost predicate OnlyJob(before: map<string, Jobs.JobState>, after: map<string, Jobs.JobState>, id: string) {
    && (forall k :: k in before ==> k in after)
    && (forall k :: k in after && k != id ==> k in before && after[k] == before[k])
  }

  /** A delivery for each of these endpoints, and no other change. */
  ghost predicate Covered(encode: Encoder, before: map<string, Jobs.JobState>, after: map<string, Jobs.JobState>,
                          endpoints: seq<string>, event: Event) {
    && (forall i :: 0 <= i < |endpoints| ==> Delivered(encode, before, after, endpoints[i], event))
    && OnlyDeliveries(before, after, event.id, endpoints)
  }

  lemma DeliveryScheduled(encode: Encoder, jobs: JobStore.Store, endpoint: string, event: Event)
    ensures ScheduleDelivery(encode, jobs, endpoint, event).Ok? <==> Schedulable(encode, jobs.rows, endpoint, event)
    ensures ScheduleDelivery(encode, jobs, endpoint, event).Ok? ==>
              var after := ScheduleDelivery(encode, jobs, endpoint, event).value.rows;
              Delivered(encode, jobs.rows, after, endpoint, event) &&
                OnlyJob(jobs.rows, after, DeliveryId(event.id, endpoint))
  {
  }

  predicate Distinct(ids: seq<string>) {
    forall i, j :: 0 <= i < j < |ids| ==> ids[i] != ids[j]
  }

  lemma LastIsOther(eventId: string, ids: seq<string>)
    requires ids != [] && Distinct(ids)
    ensures forall i :: 0 <= i < |ids| - 1 ==> DeliveryId(eventId, ids[i]) != DeliveryId(eventId, ids[|ids| - 1])
  {
    forall i | 0 <= i < |ids| - 1 && DeliveryId(eventId, ids[i]) == DeliveryId(eventId, ids[|ids| - 1])
      ensures false
    {
      DeliveryIdOfOneEvent(eventId, ids[i], ids[|ids| - 1]);
    }
  }

  /** What publishing does to the jobs table: a delivery for each endpoint, and nothing else. */
  lemma {:induction false} FanOutCoversEndpoints(encode: Encoder, jobs: JobStore.Store, ids: seq<string>, event: Event)
    requires FanOut(encode, jobs, ids, event).Ok? && Distinct(ids)
    ensures Covered(encode, jobs.rows, FanOut(encode, jobs, ids, event).value.rows, ids, event)
  {
    if ids == [] {
      NoDeliveries(encode, jobs.rows, ids, event);
    } else {
      var init := ids[..|ids| - 1];
      var middle, after := FanOutLast(encode, jobs, ids, event);
      FanOutCoversEndpoints(encode, jobs, init, event);
      LastIsOther(event.id, ids);
      OneMoreDelivery(encode, jobs.rows, middle.rows, after.rows, ids, event);
    }
  }

  /** The last delivery of a successful publication, and the jobs before and after it. */
  lemma FanOutLast(encode: Encoder, jobs: JobStore.Store, ids: seq<string>, event: Event)
    returns (before: JobStore.Store, after: JobStore.Store)
    requires ids != [] && FanOut(encode, jobs, ids, event).Ok?
    ensures FanOut(encode, jobs, ids[..|ids| - 1], event) == Ok(before) && FanOut(encode, jobs, ids, event) == Ok(after)
    ensures Delivered(encode, before.rows, after.rows, ids[|ids| - 1], event)
    ensures OnlyJob(before.rows, after.rows, DeliveryId(event.id, ids[|ids| - 1]))
  {
    before := FanOut(encode, jobs, ids[..|ids| - 1], event).value;
    after := FanOut(encode, jobs, ids, event).value;
    DeliveryScheduled(encode, before, ids[|ids| - 1], event);
  }

  lemma NoDeliveries(encode: Encoder, jobs: map<string, Jobs.JobState>, ids: seq<string>, event: Event)
    requires ids == []
    ensures Covered(encode, jobs, jobs, ids, event)
  {
  }

  lemma OneMoreDelivery(encode: Encoder, first: map<string, Jobs.JobState>, before: map<string, Jobs.JobState>,
                        after: map<string, Jobs.JobState>, ids: seq<string>, event: Event)
    requires ids != [] &&
             forall i :: 0 <= i < |ids| - 1 ==> DeliveryId(event.id, ids[i]) != DeliveryId(event.id, ids[|ids| - 1])
    requires Covered(encode, first, before, ids[..|ids| - 1], event)
    requires Delivered(encode, before, after, ids[|ids| - 1], event) &&
             OnlyJob(before, after, DeliveryId(event.id, ids[|ids| - 1]))
    ensures Covered(encode, first, after, ids, event)
  {
    var init, last := ids[..|ids| - 1], DeliveryId(event.id, ids[|ids| - 1]);
    UntouchedRow(first, before, event.id, init, last);
    forall i | 0 <= i < |ids|
      ensures Delivered(encode, first, after, ids[i], event)
    {
      if i < |init| {
        assert Delivered(encode, first, before, init[i], event) && DeliveryId(event.id, init[i]) != last;
      }
    }
    forall k | k in after && (forall i :: 0 <= i < |ids| ==> k != DeliveryId(event.id, ids[i]))
      ensures k in first && after[k] == first[k]
    {
      assert k != last;
      UntouchedRow(first, before, event.id, init, k);
    }
  }

  lemma UntouchedRow(before: map<string, Jobs.JobState>, after: map<string, Jobs.JobState>, eventId: string,
                     ids: seq<string>, k: string)
    requires OnlyDeliveries(before, after, eventId, ids)
    requires forall i :: 0 <= i < |ids| ==> k != DeliveryId(eventId, ids[i])
    ensures k in after <==> k in before
    ensures k in after ==> after[k] == before[k]
  {
  }

  lemma FanOutDelivers(encode: Encoder, jobs: JobStore.Store, ids: seq<string>, event: Event, endpoint: string)
    requires Distinct(ids) && endpoint in ids && FanOut(encode, jobs, ids, event).Ok?
    ensures Delivered(encode, jobs.rows, FanOut(encode, jobs, ids, event).value.rows, endpoint, event)
  {
    FanOutCoversEndpoints(encode, jobs, ids, event);
    var i :| 0 <= i < |ids| && ids[i] == endpoint;
    assert Delivered(encode, jobs.rows, FanOut(encode, jobs, ids, event).value.rows, ids[i], event);
  }

  /**
   Publishing succeeds exactly when every endpoint's delivery can be scheduled: one open
   job that a worker has leased under the id of a delivery fails the whole command.
   */
  lemma {:induction false} FanOutOkIff(encode: Encoder, jobs: JobStore.Store, ids: seq<string>, event: Event)
    requires Distinct(ids)
    ensures FanOut(encode, jobs, ids, event).Ok? <==>
            forall i :: 0 <= i < |ids| ==> Schedulable(encode, jobs.rows, ids[i], event)
  {
    if ids != [] {
      var init, last := ids[..|ids| - 1], ids[|ids| - 1];
      FanOutOkIff(encode, jobs, init, event);
      assert forall i :: 0 <= i < |init| ==> init[i] == ids[i];
      if FanOut(encode, jobs, init, event).Ok? {
        var middle := FanOut(encode, jobs, init, event).value;
        FanOutCoversEndpoints(encode, jobs, init, event);
        LastIsOther(event.id, ids);
        UntouchedRow(jobs.rows, middle.rows, event.id, init, DeliveryId(event.id, last));
        DeliveryScheduled(encode, middle, last, event);
        assert Schedulable(encode, jobs.rows, last, event) <==> Schedulable(encode, middle.rows, last, event);
      }
    }
  }

  // ----- Commands -----

  datatype Command =
    | CreatePayment(id: string, amount: Int64, currency: string)
    | AuthorizePayment(id: string)
    | FailPayment(id: string)
    | CancelPayment(id: string)
    | CapturePayment(id: string, amount: Int64, currency: string)
    | RefundPayment(id: string, amount: Int64, currency: string)

  datatype CommandError =
    | Refused(why: PaymentError)
    | NotStored(store: StoreError)
    | NotPublished(publish: PublishError)

  function EventTypeOf(cmd: Command): string {
    match cmd
    case CreatePayment(_, _, _) => CREATED
    case AuthorizePayment(_) => AUTHORIZED
    case FailPayment(_) => FAILED
    case CancelPayment(_) => CANCELLED
    case CapturePayment(_, _, _) => CAPTURED
    case RefundPayment(_, _, _) => REFUNDED
  }

  /** The operation that a command other than a creation asks for, once its money is checked. */
  function OpOf(cmd: Command): Result<Op, PaymentError>
    requires !cmd.CreatePayment?
  {
    match cmd
    case AuthorizePayment(_) => Ok(Op.Authorize)
    case FailPayment(_) => Ok(Op.Fail)
    case CancelPayment(_) => Ok(Op.Cancel)
    case CapturePayment(_, amount, currency) =>
      if NewMoney(amount, currency).Ok? then
        Ok(Op.Capture(NewMoney(amount, currency).value))
      else Err(NewMoney(amount, currency).error)
    case RefundPayment(_, amount, currency) =>
      if NewMoney(amount, currency).Ok? then
        Ok(Op.Refund(NewMoney(amount, currency).value))
      else Err(NewMoney(amount, currency).error)
  }

  /** The payment that a command saves: a new one, or the stored one after its transition. */
  function PaymentAfter(payments: Table, cmd: Command): Result<PaymentState, CommandError> {
    if cmd.CreatePayment? then
      match Creation(cmd.id, cmd.amount, cmd.currency)
      case Ok(payment) => Ok(payment)
      case Err(e) => Err(Refused(e))
    else
      match Find(payments, cmd.id)
      case Err(e) => Err(NotStored(e))
      case Ok(found) =>
        match OpOf(cmd)
        case Err(e) => Err(Refused(e))
        case Ok(op) =>
          match Apply(found, op)
          case Err(e) => Err(Refused(e))
          case Ok(payment) => Ok(payment)
  }

  /** One command: the payment is saved and its event published, or nothing happens. */
  ghost function Execute(encode: Encoder, db: Db, at: int, correlationId: string,
                         cmd: Command): (r: Result<(Db, PaymentState), CommandError>)
    ensures r.Ok? ==> TaggedId(r.value.1.id, EventTypeOf(cmd), r.value.1.version) in r.value.0.events
  {
    match PaymentAfter(db.payments, cmd)
    case Err(e) => Err(e)
    case Ok(payment) =>
      match Save(db.payments, payment)
      case Err(e) => Err(NotStored(e))
      case Ok(payments) =>
        match Publish(encode, db.(payments := payments), at, correlationId, payment, EventTypeOf(cmd))
        case Err(e) => Err(NotPublished(e))
        case Ok(after) => Ok((after, payment))
  }

  // ----- Reconstruction -----

  datatype HistoryError = EmptyHistory | IncompleteHistory | InconsistentHistory

  /** Restoring a payment from a snapshot checks its money and its state. */
  predicate Restores(s: PaymentState) {
    NewMoney(s.amount.amount, s.amount.currency).Ok? && Valid(s)
  }

  /** Why an event cannot stand at a position of a history. */
  function Fault(e: Event, aggregateId: string, position: nat): Option<HistoryError> {
    if ValidateEvent(e).Some? then Some(InconsistentHistory)
    else if e.aggregateId != aggregateId || e.version != position then Some(IncompleteHistory)
    else if e.payload.Unreadable? then Some(InconsistentHistory)
    else if e.payload.state.id != aggregateId || e.payload.state.version != e.version then Some(InconsistentHistory)
    else if !Restores(e.payload.state) then Some(InconsistentHistory)
    else None
  }

  function HistoryFault(events: seq<Event>): Option<HistoryError> {
    if events == [] then None
    else
      match HistoryFault(events[..|events| - 1])
      case Some(e) => Some(e)
      case None => Fault(events[|events| - 1], events[0].aggregateId, |events|)
  }

  /** The last snapshot of a history without fault, or the first fault. */
  function Reconstructed(events: seq<Event>): Result<PaymentState, HistoryError> {
    if events == [] then Err(EmptyHistory)
    else if HistoryFault(events).Some? then Err(HistoryFault(events).value)
    else Ok(events[|events| - 1].payload.state)
  }

  lemma {:induction false} HistoryFaultIff(events: seq<Event>)
    ensures HistoryFault(events) == None <==>
            forall i :: 0 <= i < |events| ==> Fault(events[i], events[0].aggregateId, i + 1) == None
  {
    if events != [] {
      HistoryFaultIff(events[..|events| - 1]);
    }
  }

  lemma {:induction false} FaultIsLasting(events: seq<Event>, i: nat)
    requires i <= |events| && HistoryFault(events[..i]).Some?
    ensures HistoryFault(events) == HistoryFault(events[..i])
  {
    if i == |events| {
      assert events[..i] == events;
    } else {
      assert events[..|events| - 1][..i] == events[..i];
      FaultIsLasting(events[..|events| - 1], i);
    }
  }

  method ReconstructFromEvents(events: seq<Event>) returns (payment: Payment?, err: Option<HistoryError>)
    ensures match Reconstructed(events)
            case Ok(s) => err == None && payment != null && payment.State() == s
            case Err(e) => err == Some(e) && payment == null
  {
    if events == [] {
      return null, Some(EmptyHistory);
    }
    payment := null;
    var aggregateId := "";
    assert events[..0] == [];
    for i := 0 to |events|
      invariant HistoryFault(events[..i]) == None
      invariant i > 0 ==> aggregateId == events[0].aggregateId
      invariant i > 0 ==> payment != null && events[i - 1].payload.Snapshot?
      invariant i > 0 ==> payment.State() == events[i - 1].payload.state
    {
      var event := events[i];
      assert events[..i + 1][..i] == events[..i];
      if HistoryFault(events[..i + 1]).Some? {
        FaultIsLasting(events, i + 1);
      }
      if i == 0 {
        aggregateId := event.aggregateId;
      }
      var invalid := ValidateEvent(event);
      if invalid.Some? {
        return null, Some(InconsistentHistory);
      }
      if event.aggregateId != aggregateId || event.version != i + 1 {
        return null, Some(IncompleteHistory);
      }
      if event.payload.Unreadable? {
        return null, Some(InconsistentHistory);
      }
      var snapshot := event.payload.state;
      if snapshot.id != aggregateId || snapshot.version != event.version {
        return null, Some(InconsistentHistory);
      }
      var money := NewMoney(snapshot.amount.amount, snapshot.amount.currency);
      if money.Err? || Validate(snapshot).Some? {
        return null, Some(InconsistentHistory);
      }
      payment := new Payment.Restore(snapshot);
    }
    assert events[..|events|] == events;
    err := None;
  }

  // ----- The mutable runtime -----

  lemma KeysAmongMore(events: Log, ids: set<string>, id: string, aggregateId: string)
    requires id in events && id !in ids
    ensures multiset(KeysAmong(events, ids + {id}, aggregateId))
         == multiset(KeysAmong(events, ids, aggregateId))
          + (if events[id].aggregateId == aggregateId then
              multiset{EventKey(events[id].occurredAt, events[id].version, id)} else multiset{})
  {
    var key, before := EventKey(events[id].occurredAt, events[id].version, id), KeysAmong(events, ids, aggregateId);
    assert key !in before;
    if events[id].aggregateId == aggregateId {
      assert KeysAmong(events, ids + {id}, aggregateId) == before + {key};
    } else {
      assert KeysAmong(events, ids + {id}, aggregateId) == before;
    }
  }

  class PaymentRuntime {
    const payments: PaymentRepository
    const jobs: JobStore.JobRepository
    const encode: Encoder
    var events: Log
    var endpoints: set<string>

    constructor (encode: Encoder)
      ensures fresh(payments) && fresh(jobs) && this.encode == encode
      ensures State() == Db(map[], map[], JobStore.EMPTY, {})
    {
      this.encode := encode;
      payments := new PaymentRepository();
      jobs := new JobStore.JobRepository();
      events, endpoints := map[], {};
    }

    function State(): Db
      reads this, payments, jobs
    {
      Db(payments.rows, events, jobs.State(), endpoints)
    }

    /** The keys of one aggregate's rows, in whatever order the rows come. */
    method CollectKeys(aggregateId: string) returns (keys: seq<EventKey>)
      ensures multiset(keys) == multiset(KeysAmong(events, events.Keys, aggregateId))
    {
      keys := [];
      var left := events.Keys;
      ghost var seen := {};
      while left != {}
        invariant left <= events.Keys && seen == events.Keys - left
        invariant multiset(keys) == multiset(KeysAmong(events, seen, aggregateId))
      {
        var id :| id in left;
        KeysAmongMore(events, seen, id, aggregateId);
        if events[id].aggregateId == aggregateId {
          keys := keys + [EventKey(events[id].occurredAt, events[id].version, id)];
        }
        seen, left := seen + {id}, left - {id};
      }
      assert seen == events.Keys;
    }

    method ListEvents(aggregateId: string) returns (result: Result<seq<Event>, EventError>)
      ensures result == ListByAggregate(events, aggregateId)
    {
      KeyOrder();
      var keys := CollectKeys(aggregateId);
      keys := Sort(keys, KeyLeq);
      ListingIsUnique(keys, KeysAmong(events, events.Keys, aggregateId), KeyLeq);
      assert keys == ListedKeys(events, aggregateId);
      result := Validated(keys);
    }

    method Validated(keys: seq<EventKey>) returns (result: Result<seq<Event>, EventError>)
      requires forall i :: 0 <= i < |keys| ==> keys[i].id in events
      ensures match FirstFault(Rows(events, keys))
              case Some(e) => result == Err(e)
              case None => result == Ok(Rows(events, keys))
    {
      var rows: seq<Event> := [];
      ghost var all := Rows(events, keys);
      for i := 0 to |keys|
        invariant rows == all[..i] && FirstFault(rows) == None
      {
        var event := events[keys[i].id];
        assert all[..i + 1][..i] == all[..i];
        var invalid := ValidateEvent(event);
        if invalid.Some? {
          FirstFaultIsLasting(all, i + 1);
          return Err(invalid.value);
        }
        rows := rows + [event];
      }
      assert rows == all;
      return Ok(rows);
    }

    method AppendEvent(event: Event) returns (err: Option<PublishError>)
      modifies this`events, jobs
      ensures match Append(old(State()), event)
              case Ok(after) => err == None && State() == after
              case Err(e) => err == Some(e)
    {
      var invalid := ValidateEvent(event);
      if invalid.Some? {
        return Some(InvalidEvent(invalid.value));
      }
      var sequence := jobs.NextRuntimeSequence();
      if event.id in events {
        return Some(EventAlreadyExists);
      }
      events := events[event.id := event.(sequence := sequence)];
      return None;
    }

    method DeliverTo(endpoint: string, event: Event) returns (err: Option<PublishError>)
      modifies jobs
      ensures match ScheduleDelivery(encode, old(jobs.State()), endpoint, event)
              case Ok(after) => err == None && jobs.State() == after
              case Err(e) => err == Some(e)
    {
      if endpoint == "" {
        return Some(InvalidDeliveryPayload);
      }
      var delivery := NewDelivery(encode, endpoint, event);
      if delivery.Err? {
        return Some(InvalidJob(delivery.error));
      }
      var job := new Jobs.Job.Restore(delivery.value);
      var refused := jobs.SaveJob(job);
      if refused.Some? {
        return Some(DeliveryNotScheduled(refused.value));
      }
      return None;
    }

    method ListEndpoints() returns (ids: seq<string>)
      ensures ids == SortedEndpoints(endpoints)
    {
      LexIsTotalOrder();
      ids := [];
      var left := endpoints;
      while left != {}
        invariant left <= endpoints && multiset(ids) == multiset(endpoints - left)
      {
        var id :| id in left;
        assert endpoints - (left - {id}) == (endpoints - left) + {id};
        ids, left := ids + [id], left - {id};
      }
      assert endpoints - {} == endpoints;
      ids := Sort(ids, LexLeq);
      ListingIsUnique(ids, endpoints, LexLeq);
    }

    method PublishEvent(at: int, correlationId: string, payment: Payment, eventType: string)
      returns (err: Option<PublishError>)
      modifies this`events, jobs
      ensures match Publish(encode, old(State()), at, correlationId, payment.State(), eventType)
              case Ok(after) => err == None && State() == after
              case Err(e) => err == Some(e)
    {
      var previous := ListEvents(payment.id);
      if previous.Err? {
        return Some(InvalidEvent(previous.error));
      }
      var causationId, causationVersion := "", 0;
      var candidates := previous.value;
      for i := 0 to |candidates|
        invariant (causationId, causationVersion) == Cause(candidates[..i], payment.version)
      {
        assert candidates[..i + 1][..i] == candidates[..i];
        if candidates[i].version < payment.version && candidates[i].version > causationVersion {
          causationId, causationVersion := candidates[i].id, candidates[i].version;
        }
      }
      assert candidates[..|candidates|] == candidates;
      var event := NewEvent(payment.State(), eventType, at, correlationId, causationId, 0);
      err := AppendEvent(event);
      if err.Some? {
        return;
      }
      var ids := ListEndpoints();
      err := DeliverToAll(ids, event);
    }

    method DeliverToAll(ids: seq<string>, event: Event) returns (err: Option<PublishError>)
      modifies jobs
      ensures match FanOut(encode, old(jobs.State()), ids, event)
              case Ok(after) => err == None && jobs.State() == after
              case Err(e) => err == Some(e)
    {
      assert ids[..|ids|] == ids;
      for i := 0 to |ids|
        invariant FanOut(encode, old(jobs.State()), ids[..i], event) == Ok(jobs.State())
      {
        assert ids[..i + 1][..i] == ids[..i];
        err := DeliverTo(ids[i], event);
        if err.Some? {
          FanOutErrorIsLasting(encode, old(jobs.State()), ids, event, i + 1);
          return;
        }
      }
      return None;
    }

    /** Find, change, save and publish, without regard to what an error leaves behind. */
    method Perform(at: int, correlationId: string, cmd: Command) returns (payment: Payment?, err: Option<CommandError>)
      modifies this`events, payments, jobs
      ensures match Execute(encode, old(State()), at, correlationId, cmd)
              case Ok(done) =>
                err == None && payment != null && fresh(payment) && payment.State() == done.1 && State() == done.0
              case Err(e) => err == Some(e)
    {
      ghost var begun := State();
      payment, err := Change(cmd);
      if err.Some? {
        return null, err;
      }
      var refused := payments.SavePayment(payment);
      if refused.Some? {
        return null, Some(NotStored(refused.value));
      }
      assert State() == begun.(payments := payments.rows);
      var failed := PublishEvent(at, correlationId, payment, EventTypeOf(cmd));
      if failed.Some? {
        return null, Some(NotPublished(failed.value));
      }
      err := None;
    }

    method Change(cmd: Command) returns (payment: Payment?, err: Option<CommandError>)
      ensures match PaymentAfter(payments.rows, cmd)
              case Ok(s) => err == None && payment != null && fresh(payment) && payment.State() == s
              case Err(e) => err == Some(e)
    {
      if cmd.CreatePayment? {
        var money := NewMoney(cmd.amount, cmd.currency);
        if money.Err? {
          return null, Some(Refused(money.error));
        }
        var created := New(cmd.id, money.value);
        if created.Err? {
          return null, Some(Refused(created.error));
        }
        payment := new Payment.Restore(created.value);
        return payment, None;
      }
      var missing;
      payment, missing := payments.FindByID(cmd.id);
      if missing.Some? {
        return null, Some(NotStored(missing.value));
      }
      var op := OpOf(cmd);
      if op.Err? {
        return null, Some(Refused(op.error));
      }
      var refused := payment.Perform(op.value);
      err := if refused.Some? then Some(Refused(refused.value)) else None;
    }

    /** One transaction: what an error leaves behind is rolled back. */
    method ExecuteCommand(at: int, correlationId: string, cmd: Command)
      returns (payment: Payment?, err: Option<CommandError>)
      modifies this`events, payments, jobs
      ensures match Execute(encode, old(State()), at, correlationId, cmd)
              case Ok(done) => err == None && payment != null && payment.State() == done.1 && State() == done.0
              case Err(e) => err == Some(e) && payment == null && State() == old(State())
    {
      var begun := State();
      payment, err := Perform(at, correlationId, cmd);
      if err.Some? {
        payments.rows, events := begun.payments, begun.events;
        jobs.rows, jobs.audit, jobs.sequence := begun.jobs.rows, begun.jobs.audit, begun.jobs.sequence;
        payment := null;
      }
    }
  }

  lemma {:induction false} FirstFaultIsLasting(rows: seq<Event>, i: nat)
    requires i <= |rows| && FirstFault(rows[..i]).Some?
    ensures FirstFault(rows) == FirstFault(rows[..i])
  {
    if i == |rows| {
      assert rows[..i] == rows;
    } else {
      assert rows[..|rows| - 1][..i] == rows[..i];
      FirstFaultIsLasting(rows[..|rows| - 1], i);
    }
  }

  lemma {:induction false} FanOutErrorIsLasting(encode: Encoder, jobs: JobStore.Store, ids: seq<string>, event: Event,
                                                i: nat)
    requires i <= |ids| && FanOut(encode, jobs, ids[..i], event).Err?
    ensures FanOut(encode, jobs, ids, event) == FanOut(encode, jobs, ids[..i], event)
  {
    if i == |ids| {
      assert ids[..i] == ids;
    } else {
      assert ids[..|ids| - 1][..i] == ids[..i];
      FanOutErrorIsLasting(encode, jobs, ids[..|ids| - 1], event, i);
    }
  }
}
