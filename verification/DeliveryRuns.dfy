/**
 Every run of payments and scheduler together: payment commands publish events and
 schedule their deliveries in the very job table on which the workers run.
 */
module DeliveryRuns {
  import opened Outcomes
  import opened Ordering
  import opened RetryPolicy
  import opened Decimal
  import opened Payments
  import opened PaymentEvents
  import opened EventKinds
  import opened DeliveryIds
  import PaymentStore
  import PaymentEventRuns
  import Jobs
  import JobStore
  import SchedulerRuns
  import SchedulerTheorems
  import Sagas

  /** `due` records, for each event, the endpoints that were registered when it was published. */
  datatype Sys = Sys(
    business: PaymentEventRuns.Sys,
    handles: map<nat, SchedulerRuns.Handle>,
    leases: seq<SchedulerRuns.Lease>,
    runs: seq<SchedulerRuns.Execution>,
    due: map<string, set<string>>)

  datatype Step = Business(step: PaymentEventRuns.Step) | Work(work: SchedulerRuns.Step)

  function Start(at: int): Sys {
    Sys(PaymentEventRuns.Start(at), map[], [], [], map[])
  }

  /** The scheduler's view: its store is the job table of the payment runtime. */
  function Scheduler(s: Sys): SchedulerRuns.Sys {
    SchedulerRuns.Sys(s.business.db.jobs, s.handles, s.leases, s.runs)
  }

  ghost function DueAfter(encode: Encoder, s: Sys, step: PaymentEventRuns.Step): map<string, set<string>> {
    if !step.Do? then s.due
    else
      match Execute(encode, s.business.db, s.business.now, step.correlationId, step.cmd)
      case Err(_) => s.due
      case Ok((_, payment)) =>
        s.due[TaggedId(payment.id, EventTypeOf(step.cmd), payment.version) := s.business.db.endpoints]
  }

  ghost function Next(encode: Encoder, p: Policy, s: Sys, step: Step): Sys
    requires Constructed(p)
  {
    match step
    case Business(b) =>
      if b.Schedule? then s
      else s.(business := PaymentEventRuns.Next(encode, s.business, b), due := DueAfter(encode, s, b))
    case Work(w) =>
      var t := SchedulerRuns.Next(p, Scheduler(s), w);
      Sys(PaymentEventRuns.Next(encode, s.business, PaymentEventRuns.Schedule(t.store)), t.handles, t.leases, t.runs,
        s.due)
  }

  ghost function Run(encode: Encoder, p: Policy, s: Sys, steps: seq<Step>): Sys
    requires Constructed(p)
  {
    if steps == [] then s else Next(encode, p, Run(encode, p, s, steps[..|steps| - 1]), steps[|steps| - 1])
  }

  // ----- Publishing is enqueueing -----

  lemma ScheduleKeepsInv(encode: Encoder, p: Policy, t: SchedulerRuns.Sys, endpoint: string, event: Event)
    requires Constructed(p) && SchedulerRuns.Inv(Budget(p), t) && ScheduleDelivery(encode, t.store, endpoint, event).Ok?
    ensures SchedulerRuns.Inv(Budget(p), t.(store := ScheduleDelivery(encode, t.store, endpoint, event).value))
  {
    var step := SchedulerRuns.Enqueue(DeliveryId(event.id, endpoint), DELIVERY_JOB_TYPE, encode(endpoint, event),
                                      event.occurredAt, event.aggregateId, event.id);
    SchedulerRuns.StepKeepsInv(p, t, step);
    assert SchedulerRuns.Next(p, t, step) == t.(store := ScheduleDelivery(encode, t.store, endpoint, event).value);
  }

  lemma {:induction false} FanOutKeepsInv(encode: Encoder, p: Policy, t: SchedulerRuns.Sys, ids: seq<string>,
                                          event: Event)
    requires Constructed(p) && SchedulerRuns.Inv(Budget(p), t) && FanOut(encode, t.store, ids, event).Ok?
    ensures SchedulerRuns.Inv(Budget(p), t.(store := FanOut(encode, t.store, ids, event).value))
  {
    if ids != [] {
      FanOutKeepsInv(encode, p, t, ids[..|ids| - 1], event);
      ScheduleKeepsInv(encode, p, t.(store := FanOut(encode, t.store, ids[..|ids| - 1], event).value), ids[|ids| - 1],
        event);
    }
  }

  lemma SequenceKeepsHandles(m: uint64, t: SchedulerRuns.Sys, after: SchedulerRuns.Sys)
    requires SchedulerRuns.HandlesOk(m, t) && SchedulerRuns.SavedOk(t)
    requires after == t.(store := t.store.(sequence := t.store.sequence + 1))
    ensures SchedulerRuns.HandlesOk(m, after) && SchedulerRuns.SavedOk(after)
  {
    forall h | h in after.handles
      ensures SchedulerRuns.HandleOk(m, after, h)
    {
      assert SchedulerRuns.HandleOk(m, t, h);
    }
    assert forall h :: SchedulerRuns.InPhase(after, h, SchedulerRuns.Saved) ==>
                         SchedulerRuns.InPhase(t, h, SchedulerRuns.Saved) &&
                           SchedulerRuns.Started(after, h) == SchedulerRuns.Started(t, h);
  }

  lemma SequenceKeepsTables(m: uint64, t: SchedulerRuns.Sys, after: SchedulerRuns.Sys)
    requires SchedulerRuns.RowsOk(m, t.store) && SchedulerRuns.AuditOk(t.store) && SchedulerRuns.LeasesOk(t) &&
             SchedulerRuns.RunsOk(t)
    requires after == t.(store := t.store.(sequence := t.store.sequence + 1))
    ensures SchedulerRuns.RowsOk(m, after.store) && SchedulerRuns.AuditOk(after.store) &&
            SchedulerRuns.LeasesOk(after) && SchedulerRuns.RunsOk(after)
  {
  }

  lemma SequenceKeepsInv(m: uint64, t: SchedulerRuns.Sys)
    requires SchedulerRuns.Inv(m, t)
    ensures SchedulerRuns.Inv(m, t.(store := t.store.(sequence := t.store.sequence + 1)))
  {
    var after := t.(store := t.store.(sequence := t.store.sequence + 1));
    SequenceKeepsHandles(m, t, after);
    SequenceKeepsTables(m, t, after);
  }

  lemma DoKeepsScheduler(encode: Encoder, p: Policy, t: SchedulerRuns.Sys, ids: seq<string>, event: Event,
                         after: JobStore.Store)
    requires Constructed(p) && SchedulerRuns.Inv(Budget(p), t)
    requires FanOut(encode, t.store.(sequence := t.store.sequence + 1), ids, event) == Ok(after)
    ensures SchedulerRuns.Inv(Budget(p), t.(store := after))
  {
    SequenceKeepsInv(Budget(p), t);
    FanOutKeepsInv(encode, p, t.(store := t.store.(sequence := t.store.sequence + 1)), ids, event);
  }

  // ----- The invariant -----

  /** The job is this event's delivery to this endpoint, at whatever point of its lifecycle. */
  predicate IsDelivery(job: Jobs.JobState, encode: Encoder, endpoint: string, event: Event) {
    && job.id == DeliveryId(event.id, endpoint) && job.jobType == DELIVERY_JOB_TYPE &&
       job.payload == encode(endpoint, event.(sequence := 0))
    && job.scheduledAt == event.occurredAt && job.aggregateId == event.aggregateId && job.causationId == event.id
  }

  predicate HasDelivery(rows: map<string, Jobs.JobState>, encode: Encoder, endpoint: string, event: Event) {
    DeliveryId(event.id, endpoint) in rows && IsDelivery(rows[DeliveryId(event.id, endpoint)], encode, endpoint, event)
  }

  /** Every event has its deliveries. */
  ghost predicate Delivering(encode: Encoder, rows: map<string, Jobs.JobState>, events: Log,
                             due: map<string, set<string>>) {
    && due.Keys == events.Keys
    && forall k, endpoint :: k in due && endpoint in due[k] ==> HasDelivery(rows, encode, endpoint, events[k])
  }

  ghost predicate EventIds(events: Log) {
    forall k :: k in events ==> events[k].id == k && EventId(k)
  }

  /** Whether a job has the id of a delivery to one of these endpoints. */
  ghost predicate DeliveryJob(endpoints: set<string>, id: string) {
    exists k, endpoint :: EventId(k) && endpoint in endpoints && id == DeliveryId(k, endpoint)
  }

  /** No delivery of an event that is still to come. */
  ghost predicate OnlyPublished(endpoints: set<string>, rows: map<string, Jobs.JobState>, events: Log) {
    forall k, endpoint :: EventId(k) && endpoint in endpoints && DeliveryId(k, endpoint) in rows ==> k in events
  }

  /** No endpoint id is another one behind the type and version of an event. */
  ghost predicate Separate(endpoints: set<string>) {
    forall a, b :: a in endpoints && b in endpoints && a != b ==> !Extends(a, b)
  }

  ghost predicate DeliveriesOk(encode: Encoder, endpoints: set<string>, db: Db, due: map<string, set<string>>) {
    match db
    case Db(_, events, jobs, registered) =>
      && registered <= endpoints && (forall k :: k in due ==> due[k] <= endpoints) && EventIds(events)
      && Delivering(encode, jobs.rows, events, due) && OnlyPublished(endpoints, jobs.rows, events)
  }

  ghost predicate Inv(encode: Encoder, p: Policy, endpoints: set<string>, s: Sys)
    requires Constructed(p)
  {
    SchedulerRuns.Inv(Budget(p), Scheduler(s)) && Kinds(s.business) &&
      DeliveriesOk(encode, endpoints, s.business.db, s.due)
  }

  /** Endpoints come from a given set, and other jobs do not take the ids of deliveries. */
  ghost predicate Allowed(endpoints: set<string>, step: Step) {
    match step
    case Business(b) => b.Register? ==> b.endpoint in endpoints
    case Work(w) => w.Enqueue? ==> !DeliveryJob(endpoints, w.id)
  }

  ghost predicate AllAllowed(endpoints: set<string>, steps: seq<Step>) {
    forall i :: 0 <= i < |steps| ==> Allowed(endpoints, steps[i])
  }

  lemma SeparateIds(endpoints: set<string>, e: string, a: string, f: string, b: string)
    requires Separate(endpoints) && a in endpoints && b in endpoints && EventId(e) && EventId(f)
    requires DeliveryId(e, a) == DeliveryId(f, b)
    ensures e == f && a == b
  {
    DeliveryIdInjective(e, a, f, b);
  }

  // ----- Workers -----

  lemma LegalStepKeepsDelivery(before: Jobs.JobState, after: Jobs.JobState, encode: Encoder, endpoint: string,
                               event: Event)
    requires Jobs.LegalStep(before, after) && IsDelivery(before, encode, endpoint, event)
    ensures IsDelivery(after, encode, endpoint, event)
  {
  }

  lemma WriteKeepsDeliveries(encode: Encoder, endpoints: set<string>, db: Db, after: Db,
                             due: map<string, set<string>>, step: SchedulerRuns.Step, job: Jobs.JobState)
    requires DeliveriesOk(encode, endpoints, db, due) && SchedulerTheorems.WriteFits(db.jobs, step, job)
    requires forall k :: k in db.jobs.rows ==> db.jobs.rows[k].id == k
    requires step.Enqueue? ==> !DeliveryJob(endpoints, step.id)
    requires after == db.(jobs := after.jobs) && after.jobs.rows == db.jobs.rows[job.id := job]
    ensures DeliveriesOk(encode, endpoints, after, due)
  {
    forall k, endpoint | k in due && endpoint in due[k]
      ensures HasDelivery(after.jobs.rows, encode, endpoint, db.events[k])
    {
      assert HasDelivery(db.jobs.rows, encode, endpoint, db.events[k]);
      if job.id == DeliveryId(k, endpoint) {
        assert due[k] <= endpoints && EventId(k);
        assert DeliveryJob(endpoints, job.id);
        LegalStepKeepsDelivery(db.jobs.rows[job.id], job, encode, endpoint, db.events[k]);
      }
    }
    forall k, endpoint | EventId(k) && endpoint in endpoints && DeliveryId(k, endpoint) in after.jobs.rows
      ensures k in db.events
    {
      if job.id == DeliveryId(k, endpoint) {
        assert DeliveryJob(endpoints, job.id);
      }
    }
  }

  // ----- Commands -----

  /** Publishing gives the new event its deliveries and touches no other job. */
  lemma NotifiedGainsDeliveries(encode: Encoder, endpoints: set<string>, before: map<string, Jobs.JobState>,
                                after: map<string, Jobs.JobState>,
                                events: Log, registered: set<string>, event: Event)
    requires OnlyPublished(endpoints, before, events) && EventId(event.id) && event.id !in events &&
             registered <= endpoints
    requires PaymentEventRuns.Notified(encode, registered, before, after, event.(sequence := 0))
    ensures forall endpoint :: endpoint in registered ==> HasDelivery(after, encode, endpoint, event)
  {
    forall endpoint | endpoint in registered
      ensures HasDelivery(after, encode, endpoint, event)
    {
      assert Delivered(encode, before, after, endpoint, event.(sequence := 0));
      assert DeliveryId(event.id, endpoint) !in before;
    }
  }

  lemma NotifiedKeepsDelivery(encode: Encoder, endpoints: set<string>, before: map<string, Jobs.JobState>,
                              after: map<string, Jobs.JobState>,
                              registered: set<string>, event: Event, earlier: Event, endpoint: string)
    requires Separate(endpoints) && registered <= endpoints && endpoint in endpoints && earlier.id != event.id &&
             EventId(earlier.id) && EventId(event.id)
    requires PaymentEventRuns.Notified(encode, registered, before, after, event.(sequence := 0))
    requires forall k :: k in before ==> k in after
    requires HasDelivery(before, encode, endpoint, earlier)
    ensures HasDelivery(after, encode, endpoint, earlier)
  {
    forall other | other in registered
      ensures DeliveryId(earlier.id, endpoint) != DeliveryId(event.id, other)
    {
      if DeliveryId(earlier.id, endpoint) == DeliveryId(event.id, other) {
        SeparateIds(endpoints, earlier.id, endpoint, event.id, other);
      }
    }
  }

  lemma NotifiedKeepsPublished(encode: Encoder, endpoints: set<string>, before: map<string, Jobs.JobState>,
                               after: map<string, Jobs.JobState>,
                               events: Log, registered: set<string>, event: Event)
    requires Separate(endpoints) && registered <= endpoints && EventId(event.id)
    requires OnlyPublished(endpoints, before, events)
    requires PaymentEventRuns.Notified(encode, registered, before, after, event.(sequence := 0))
    ensures OnlyPublished(endpoints, after, events[event.id := event])
  {
    forall k, endpoint | EventId(k) && endpoint in endpoints && DeliveryId(k, endpoint) in after
      ensures k in events[event.id := event]
    {
      if other :| other in registered && DeliveryId(k, endpoint) == DeliveryId(event.id, other) {
        SeparateIds(endpoints, k, endpoint, event.id, other);
      } else {
        assert DeliveryId(k, endpoint) in before;
      }
    }
  }

  /** A publication and what it leaves. */
  ghost predicate Publication(encode: Encoder, db: Db, after: Db, event: Event) {
    && EventId(event.id) && event.id !in db.events
    && after.events == db.events[event.id := event] && after.endpoints == db.endpoints
    && (forall k :: k in db.jobs.rows ==> k in after.jobs.rows)
    && PaymentEventRuns.Notified(encode, db.endpoints, db.jobs.rows, after.jobs.rows, event.(sequence := 0))
  }

  lemma PublicationKeepsDeliveries(encode: Encoder, endpoints: set<string>, db: Db, after: Db,
                                   due: map<string, set<string>>, event: Event)
    requires DeliveriesOk(encode, endpoints, db, due) && Separate(endpoints) && Publication(encode, db, after, event)
    ensures DeliveriesOk(encode, endpoints, after, due[event.id := db.endpoints])
  {
    var more := due[event.id := db.endpoints];
    NotifiedGainsDeliveries(encode, endpoints, db.jobs.rows, after.jobs.rows, db.events, db.endpoints, event);
    NotifiedKeepsPublished(encode, endpoints, db.jobs.rows, after.jobs.rows, db.events, db.endpoints, event);
    forall k, endpoint | k in more && endpoint in more[k]
      ensures HasDelivery(after.jobs.rows, encode, endpoint, after.events[k])
    {
      if k != event.id {
        assert HasDelivery(db.jobs.rows, encode, endpoint, db.events[k]) && due[k] <= endpoints;
        NotifiedKeepsDelivery(encode, endpoints, db.jobs.rows, after.jobs.rows, db.endpoints, event, db.events[k],
          endpoint);
      }
    }
  }

  lemma RowsStay(encode: Encoder, jobs: JobStore.Store, endpoints: set<string>, event: Event)
    requires FanOut(encode, jobs, SortedEndpoints(endpoints), event).Ok?
    ensures forall k :: k in jobs.rows ==> k in FanOut(encode, jobs, SortedEndpoints(endpoints), event).value.rows
  {
    LexIsTotalOrder();
    EachOnce(SortedEndpoints(endpoints), endpoints);
    FanOutCoversEndpoints(encode, jobs, SortedEndpoints(endpoints), event);
  }

  lemma CommandPublishes(encode: Encoder, s: PaymentEventRuns.Sys, correlationId: string, cmd: Command)
    returns (event: Event)
    requires Execute(encode, s.db, s.now, correlationId, cmd).Ok?
    ensures var (db, payment) := Execute(encode, s.db, s.now, correlationId, cmd).value;
            && event.id == TaggedId(payment.id, EventTypeOf(cmd), payment.version)
            && (EventId(event.id) ==> Publication(encode, s.db, db, event))
            && event.id !in s.db.events && db.events == s.db.events[event.id := event] && db.endpoints == s.db.endpoints
            && FanOut(encode, s.db.jobs.(sequence := s.db.jobs.sequence + 1), SortedEndpoints(s.db.endpoints),
               event.(sequence := 0)) == Ok(db.jobs)
  {
    event := ExecutedJobs(encode, s, correlationId, cmd);
    var jobs := s.db.jobs.(sequence := s.db.jobs.sequence + 1);
    PaymentEventRuns.SortedFanOut(encode, s.db.endpoints, jobs, event.(sequence := 0));
    RowsStay(encode, jobs, s.db.endpoints, event.(sequence := 0));
  }

  lemma DoKeepsDeliveries(encode: Encoder, endpoints: set<string>, s: Sys, correlationId: string, cmd: Command)
    requires Kinds(s.business) && DeliveriesOk(encode, endpoints, s.business.db, s.due) && Separate(endpoints)
    requires Execute(encode, s.business.db, s.business.now, correlationId, cmd).Ok?
    ensures var (db, payment) := Execute(encode, s.business.db, s.business.now, correlationId, cmd).value;
            DeliveriesOk(encode, endpoints, db,
              s.due[TaggedId(payment.id, EventTypeOf(cmd), payment.version) := s.business.db.endpoints])
  {
    var (db, payment) := Execute(encode, s.business.db, s.business.now, correlationId, cmd).value;
    var event := CommandPublishes(encode, s.business, correlationId, cmd);
    var same := ExecutedIsOfAKind(encode, s.business, correlationId, cmd);
    assert event.id in db.events;
    PublicationKeepsDeliveries(encode, endpoints, s.business.db, db, s.due, event);
  }

  lemma DoKeepsSchedulerInv(encode: Encoder, p: Policy, s: Sys, correlationId: string, cmd: Command)
    requires Constructed(p) && SchedulerRuns.Inv(Budget(p), Scheduler(s))
    requires Execute(encode, s.business.db, s.business.now, correlationId, cmd).Ok?
    ensures var db := Execute(encode, s.business.db, s.business.now, correlationId, cmd).value.0;
            SchedulerRuns.Inv(Budget(p), Scheduler(s).(store := db.jobs))
  {
    var db := Execute(encode, s.business.db, s.business.now, correlationId, cmd).value.0;
    var event := CommandPublishes(encode, s.business, correlationId, cmd);
    DoKeepsScheduler(encode, p, Scheduler(s), SortedEndpoints(s.business.db.endpoints), event.(sequence := 0), db.jobs);
  }

  lemma DoKeepsInv(encode: Encoder, p: Policy, endpoints: set<string>, s: Sys, correlationId: string, cmd: Command)
    requires Constructed(p) && Inv(encode, p, endpoints, s) && Separate(endpoints)
    ensures Inv(encode, p, endpoints, Next(encode, p, s, Business(PaymentEventRuns.Do(correlationId, cmd))))
  {
    if Execute(encode, s.business.db, s.business.now, correlationId, cmd).Ok? {
      EventKinds.StepKeepsKinds(encode, s.business, PaymentEventRuns.Do(correlationId, cmd));
      DoKeepsDeliveries(encode, endpoints, s, correlationId, cmd);
      DoKeepsSchedulerInv(encode, p, s, correlationId, cmd);
    }
  }

  lemma WorkKeepsInv(encode: Encoder, p: Policy, endpoints: set<string>, s: Sys, w: SchedulerRuns.Step)
    requires Constructed(p) && Inv(encode, p, endpoints, s) && Allowed(endpoints, Work(w))
    ensures Inv(encode, p, endpoints, Next(encode, p, s, Work(w)))
  {
    var store := SchedulerRuns.Next(p, Scheduler(s), w).store;
    SchedulerRuns.StepKeepsInv(p, Scheduler(s), w);
    EventKinds.StepKeepsKinds(encode, s.business, PaymentEventRuns.Schedule(store));
    var job := SchedulerTheorems.StepWrites(p, Scheduler(s), w);
    if job.Some? {
      WriteKeepsDeliveries(encode, endpoints, s.business.db, s.business.db.(jobs := store), s.due, w, job.value);
    }
  }

  lemma StepKeepsInv(encode: Encoder, p: Policy, endpoints: set<string>, s: Sys, step: Step)
    requires Constructed(p) && Inv(encode, p, endpoints, s) && Separate(endpoints) && Allowed(endpoints, step)
    ensures Inv(encode, p, endpoints, Next(encode, p, s, step))
  {
    match step
    case Business(b) =>
      if b.Do? {
        DoKeepsInv(encode, p, endpoints, s, b.correlationId, b.cmd);
      } else {
        EventKinds.StepKeepsKinds(encode, s.business, b);
      }
    case Work(w) => WorkKeepsInv(encode, p, endpoints, s, w);
  }

  lemma {:induction false} RunKeepsInv(encode: Encoder, p: Policy, endpoints: set<string>, at: int, steps: seq<Step>)
    requires Constructed(p) && Separate(endpoints) && AllAllowed(endpoints, steps)
    ensures Inv(encode, p, endpoints, Run(encode, p, Start(at), steps))
  {
    if steps == [] {
      StartIsOk(encode, p, endpoints, at);
    } else {
      var init := steps[..|steps| - 1];
      RunKeepsInv(encode, p, endpoints, at, init);
      assert Allowed(endpoints, steps[|init|]);
      StepKeepsInv(encode, p, endpoints, Run(encode, p, Start(at), init), steps[|init|]);
    }
  }

  lemma StartIsOk(encode: Encoder, p: Policy, endpoints: set<string>, at: int)
    requires Constructed(p)
    ensures Inv(encode, p, endpoints, Start(at))
  {
  }

  // ----- Theorems -----

  /** Every event has, for each endpoint registered at its publication, its own delivery job. */
  ghost predicate AllDelivered(encode: Encoder, s: Sys) {
    && s.due.Keys == s.business.db.events.Keys
    && forall k, endpoint :: k in s.due && endpoint in s.due[k] ==>
         s.business.db.events[k].id == k &&
           HasDelivery(s.business.db.jobs.rows, encode, endpoint, s.business.db.events[k])
  }

  /**
   In every run of commands and workers, with endpoints of which none is another one behind
   the type and version of an event, each committed event has its own delivery job for
   every endpoint that was registered when it was published: with its id, content and
   causation id. No later command and no step of a worker replaces it by another.
   */
  lemma {:induction false} EveryEventKeepsItsDeliveries(encode: Encoder, p: Policy, endpoints: set<string>, at: int,
      steps: seq<Step>)
    requires Constructed(p) && Separate(endpoints) && AllAllowed(endpoints, steps)
    ensures AllDelivered(encode, Run(encode, p, Start(at), steps))
  {
    RunKeepsInv(encode, p, endpoints, at, steps);
  }

  /** The endpoints that an event is due to are those registered when it was published, and stay so. */
  lemma DueIsRegistered(encode: Encoder, p: Policy, s: Sys, step: Step, k: string)
    requires Constructed(p)
    ensures var t := Next(encode, p, s, step);
            && (k in s.due && k in s.business.db.events ==>
                  k in t.due && t.due[k] == s.due[k] && k in t.business.db.events &&
                    t.business.db.events[k] == s.business.db.events[k])
            && (k in t.due && k !in s.due ==> t.due[k] == s.business.db.endpoints && k in t.business.db.events)
  {
    if step.Business? && step.step.Do? &&
        Execute(encode, s.business.db, s.business.now, step.step.correlationId, step.step.cmd).Ok? {
      var event := CommandPublishes(encode, s.business, step.step.correlationId, step.step.cmd);
    }
  }

  /** Jobs of other kinds never take the id of a delivery when theirs do not begin as it does. */
  lemma OtherPrefixIsAllowed(endpoints: set<string>, enqueue: SchedulerRuns.Step)
    requires enqueue.Enqueue? && !("webhook:" <= enqueue.id)
    ensures Allowed(endpoints, Work(enqueue))
  {
    forall k, endpoint
      ensures enqueue.id != DeliveryId(k, endpoint)
    {
      assert DeliveryId(k, endpoint)[..8] == "webhook:";
    }
  }

  /** Publishing a message of the saga over a payment is allowed whatever the endpoints are. */
  lemma SagaMessageIsAllowed(endpoints: set<string>, i: Sagas.Instance, paymentId: string, enqueue: SchedulerRuns.Step)
    requires enqueue.Enqueue? && i.id == Sagas.SagaIdOf(paymentId) && enqueue.id == Sagas.MessageId(i)
    ensures Allowed(endpoints, Work(enqueue))
  {
    assert enqueue.id[0] == 's';
    OtherPrefixIsAllowed(endpoints, enqueue);
  }
}
