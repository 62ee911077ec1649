/**
 What starting a saga over a new payment does in a replay: its two rounds carry the saga as
 far as the configured provider lets it go, and what they leave is said on the fields of the
 payment, the saga and the jobs.
 */
module ReplaySagas {
  import opened Outcomes
  import opened Ordering
  import opened Decimal
  import opened Payments
  import opened Sagas
  import opened DeterministicProvider
  import opened Scenarios
  import opened Replay
  import opened ReplayCommands
  import Jobs

  // ----- One round with one due job -----

  predicate Quiet(jobs: map<string, ScenarioJob>, at: int) {
    forall j :: j in jobs ==> !Due(jobs[j].job, at)
  }

  predicate OnlyDue(jobs: map<string, ScenarioJob>, at: int, id: string) {
    id in jobs && Due(jobs[id].job, at) && forall j :: j in jobs && j != id ==> !Due(jobs[j].job, at)
  }

  lemma QuietTick(p: Provider, w: World)
    requires Quiet(w.jobs, w.now)
    ensures AfterTick(p, w) == Some(w)
  {
    assert forall j :: j in w.jobs ==> Executable(w.jobs[j].job, w.now) == Due(w.jobs[j].job, w.now);
    assert DueAmong(w.jobs, w.jobs.Keys, w.now) == {};
  }

  lemma OnlyBatch(jobs: map<string, ScenarioJob>, at: int, id: string)
    requires OnlyDue(jobs, at, id)
    ensures |Batch(jobs, at, BATCH_SIZE)| == 1 && Batch(jobs, at, BATCH_SIZE)[0].id == id
  {
    JobKeyOrder();
    var keys := DueAmong(jobs, jobs.Keys, at);
    var listed := Listing(keys, JobKeyLeq);
    assert keys == {JobKey(jobs[id].job.nextAttemptAt, id)};
    EachOnce(listed, keys);
    assert listed[0] in keys;
  }

  lemma TickOfOne(p: Provider, w: World, id: string)
    requires OnlyDue(w.jobs, w.now, id)
    ensures AfterTick(p, w) == AfterJob(p, w, id, SCHEDULER_OWNER)
  {
    OnlyBatch(w.jobs, w.now, id);
    var batch := Batch(w.jobs, w.now, BATCH_SIZE);
    assert batch[..|batch| - 1] == [];
    assert AfterJobs(p, w, batch[..|batch| - 1]) == Some(w);
  }

  /** The new job of a message. */
  function Entry(m: Message): ScenarioJob
    requires ValidMessage(m)
  {
    ScenarioJob(Jobs.NewJob(m.id, SAGA_JOB_TYPE, "", m.scheduledAt, "", "").value, SagaStepOf(m))
  }

  /** The world in which a message is handled: its job is running. */
  function Handling(w: World, m: Message): World
    requires ValidMessage(m)
  {
    w.(jobs := w.jobs[m.id := Entry(m).(job := Entry(m).job.(status := Jobs.Running, leaseOwner := SCHEDULER_OWNER,
      leaseExpiresAt := w.now + MINUTE, generation := 1, attempts := 1))])
  }

  /** The job of a message once it is done. */
  function DoneEntry(m: Message): ScenarioJob
    requires ValidMessage(m)
  {
    Entry(m).(job := Entry(m).job.(status := Jobs.Completed, generation := 1, attempts := 1))
  }

  lemma MessageRound(p: Provider, w: World, m: Message)
    requires ValidMessage(m) && m.id in w.jobs && w.jobs[m.id] == Entry(m) && OnlyDue(w.jobs, w.now, m.id)
    requires w.now + MINUTE != Jobs.NO_TIME
    ensures AfterTick(p, w) ==
            match AfterMessage(p, Handling(w, m), m)
            case None => None
            case Some(handled) => Some(handled.(jobs := handled.jobs[m.id := DoneEntry(m)]))
  {
    TickOfOne(p, w, m.id);
  }

  // ----- The messages of a new saga -----

  function Begun(w: World, c: Command): Instance {
    Instance(SagaIdOf(c.paymentId), c.paymentId, Request(Input(c.amount.amount, c.amount.currency)), StatusRunning,
      StepAuthorize, [], [], 0, 1, w.now)
  }

  function Failing(w: World, c: Command): Instance {
    Begun(w, c).(status := StatusFailed, version := 2)
  }

  function Authorised(w: World, c: Command): Instance {
    Begun(w, c).(currentStep := StepCapture, completed := [StepAuthorize], version := 2)
  }

  function Completing(w: World, c: Command): Instance {
    Authorised(w, c).(status := StatusCompleted, completed := [StepAuthorize, StepCapture], version := 3)
  }

  /** A new payment that the provider serves, and a command on it, at a proper time. */
  predicate NewPayment(w: World, c: Command) {
    && c.paymentId in w.payments && w.now != UNSET && w.now + MINUTE != Jobs.NO_TIME
    && var payment := w.payments[c.paymentId];
       Served(payment) && payment.id == c.paymentId && payment.status == Status.Pending && payment.authorized == 0 &&
       payment.captured == 0 && payment.version + 2 < VERSIONS
  }

  predicate Capturable(payment: PaymentState, amount: Money) {
    amount.currency == payment.amount.currency && 0 < amount.amount <= payment.amount.amount
  }

  lemma AuthorisationAnswer(p: Provider, w: World, c: Command, m: Message)
    requires NewPayment(w, c) && m == CurrentMessage(Begun(w, c), w.now)
    ensures AnswersAs(p, w, w.payments[c.paymentId], c.(kind := AuthorizePayment),
              AnswerTo(p, m, w.payments[c.paymentId], w.now))
  {
    DirectAnswers(p, w, w.payments[c.paymentId], c.(kind := AuthorizePayment));
  }

  lemma AuthorisationFails(w: World, c: Command, m: Message)
    requires NewPayment(w, c) && m == CurrentMessage(Begun(w, c), w.now)
    ensures AfterDecision(w, Begun(w, c), m, Answered(false)) ==
            Some(w.(payments := w.payments[c.paymentId := w.payments[c.paymentId].(status := Failed,
                      version := w.payments[c.paymentId].version + 1)],
                    sagas := w.sagas[SagaIdOf(c.paymentId) := Failing(w, c)]))
  {
    var i := Begun(w, c);
    assert Advanced(i, StepAuthorize, false, w.now) == Ok(Failing(w, c));
  }

  lemma AuthorisationSucceeds(w: World, c: Command, m: Message)
    requires NewPayment(w, c) && m == CurrentMessage(Begun(w, c), w.now)
    ensures var capture := CurrentMessage(Authorised(w, c), w.now);
            ValidMessage(capture) &&
            AfterDecision(w, Begun(w, c), m, Answered(true)) ==
            Some(w.(payments := w.payments[c.paymentId := w.payments[c.paymentId].(status := Authorized,
                      authorized := w.payments[c.paymentId].amount.amount,
                      version := w.payments[c.paymentId].version + 1)],
                    sagas := w.sagas[SagaIdOf(c.paymentId) := Authorised(w, c)],
                    jobs := w.jobs[capture.id := Entry(capture)]))
  {
    assert Begun(w, c).completed + [StepAuthorize] == [StepAuthorize];
    assert Advanced(Begun(w, c), StepAuthorize, true, w.now) == Ok(Authorised(w, c));
  }

  lemma AuthorisationWaits(p: Provider, w: World, c: Command, m: Message)
    requires NewPayment(w, c) && m == CurrentMessage(Begun(w, c), w.now)
    requires DueTime(p, w) != UNSET
    ensures var announced := Announcement(p, w, c.paymentId);
            var later := AsyncMessage(m, announced);
            ValidMessage(later) &&
            AfterDecision(w, Begun(w, c), m, Waiting([announced])) ==
            Some(w.(jobs := w.jobs[later.id := Entry(later)]))
  {
    var announced := Announcement(p, w, c.paymentId);
    assert |announced.id| > 0;
    assert [announced][..0] == [];
    assert AfterPublishAll(w, m, []) == Some(w);
  }

  lemma AuthorisationHandled(p: Provider, w: World, c: Command, m: Message)
    requires NewPayment(w, c) && m == CurrentMessage(Begun(w, c), w.now)
    requires SagaIdOf(c.paymentId) in w.sagas && w.sagas[SagaIdOf(c.paymentId)] == Begun(w, c)
    ensures AfterMessage(p, w, m) == AfterDecision(w, Begun(w, c), m, AuthorisationDecision(p, w, c))
  {
    var payment := w.payments[c.paymentId];
    AuthorisationAnswer(p, w, c, m);
    DecisionOn(p, w, c, m, AnswerTo(p, m, payment, w.now));
  }

  function AuthorisationDecision(p: Provider, w: World, c: Command): Decision {
    if Declines(p) then Answered(false)
    else if !Delays(p) then Answered(true)
    else if DueTime(p, w) == UNSET then Rejected
    else Waiting([Announcement(p, w, c.paymentId)])
  }

  lemma DecisionOn(p: Provider, w: World, c: Command, m: Message, answer: Answer)
    requires NewPayment(w, c) && m == CurrentMessage(Begun(w, c), w.now)
    requires AnswersAs(p, w, w.payments[c.paymentId], c.(kind := AuthorizePayment), answer)
    ensures DecideOn(w.payments[c.paymentId], m, answer) == AuthorisationDecision(p, w, c)
  {
    var announced := Announcement(p, w, c.paymentId);
    assert |announced.id| > 0 && |announced.kind| > 0;
    assert ValidOperations([announced]) <==> ValidOperation([announced][0]);
  }

  // ----- The capture -----

  function AuthorisedPayment(payment: PaymentState): PaymentState {
    payment.(status := Authorized, authorized := payment.amount.amount, version := payment.version + 1)
  }

  function CapturedPayment(payment: PaymentState, amount: int): PaymentState {
    payment.(status := if amount == payment.amount.amount then Captured else PartiallyCaptured,
      authorized := payment.amount.amount, captured := amount, version := payment.version + 2)
  }

  /** The second world: the payment is authorised and its saga is at the capture. */
  predicate AtCapture(w: World, v: World, c: Command) {
    && NewPayment(w, c) && v.now == w.now
    && c.paymentId in v.payments && v.payments[c.paymentId] == AuthorisedPayment(w.payments[c.paymentId])
    && SagaIdOf(c.paymentId) in v.sagas && v.sagas[SagaIdOf(c.paymentId)] == Authorised(w, c)
  }

  lemma CaptureAnswer(p: Provider, w: World, v: World, c: Command, m: Message)
    requires AtCapture(w, v, c) && m == CurrentMessage(Authorised(w, c), w.now)
    ensures AnswerTo(p, m, v.payments[c.paymentId], v.now) ==
            if OfferedMoney(w.payments[c.paymentId], c) then Approved else Unavailable
  {
    var payment, capture := v.payments[c.paymentId], c.(kind := CapturePayment);
    DirectAnswers(p, v, payment, capture);
    assert Money(c.amount.amount, c.amount.currency) == c.amount;
    assert AnswersAs(p, v, payment, capture, AnswerTo(p, m, payment, v.now));
  }

  lemma CaptureDecided(w: World, v: World, c: Command, m: Message, answer: Answer)
    requires AtCapture(w, v, c) && m == CurrentMessage(Authorised(w, c), w.now)
    requires answer == if OfferedMoney(w.payments[c.paymentId], c) then Approved else Unavailable
    ensures DecideOn(v.payments[c.paymentId], m, answer) ==
            if OfferedMoney(w.payments[c.paymentId], c) then Answered(true) else Rejected
  {
  }

  lemma CaptureApplied(w: World, v: World, c: Command, m: Message)
    requires AtCapture(w, v, c) && m == CurrentMessage(Authorised(w, c), w.now)
    requires OfferedMoney(w.payments[c.paymentId], c)
    ensures AfterDecision(v, Authorised(w, c), m, Answered(true)) ==
            if Capturable(w.payments[c.paymentId], c.amount) then
              Some(v.(payments := v.payments[c.paymentId := CapturedPayment(w.payments[c.paymentId], c.amount.amount)],
                      sagas := v.sagas[SagaIdOf(c.paymentId) := Completing(w, c)]))
            else None
  {
    assert Authorised(w, c).completed + [StepCapture] == [StepAuthorize, StepCapture];
    assert Advanced(Authorised(w, c), StepCapture, true, w.now) == Ok(Completing(w, c));
  }

  lemma CaptureHandled(p: Provider, w: World, v: World, c: Command, m: Message)
    requires AtCapture(w, v, c) && m == CurrentMessage(Authorised(w, c), w.now)
    ensures AfterMessage(p, v, m) ==
            if Capturable(w.payments[c.paymentId], c.amount) then
              Some(v.(payments := v.payments[c.paymentId := CapturedPayment(w.payments[c.paymentId], c.amount.amount)],
                      sagas := v.sagas[SagaIdOf(c.paymentId) := Completing(w, c)]))
            else None
  {
    CaptureAnswer(p, w, v, c, m);
    CaptureDecided(w, v, c, m, AnswerTo(p, m, v.payments[c.paymentId], v.now));
    if OfferedMoney(w.payments[c.paymentId], c) {
      CaptureApplied(w, v, c, m);
    }
  }

  // ----- The whole command -----

  function FirstMessage(w: World, c: Command): Message {
    CurrentMessage(Begun(w, c), w.now)
  }

  function SecondMessage(w: World, c: Command): Message {
    CurrentMessage(Authorised(w, c), w.now)
  }

  function LaterMessage(p: Provider, w: World, c: Command): Message {
    AsyncMessage(FirstMessage(w, c), Announcement(p, w, c.paymentId))
  }

  /** The saga and its first message, to be handled. */
  function Started(w: World, c: Command): World
    requires NewPayment(w, c)
  {
    w.(sagas := w.sagas[SagaIdOf(c.paymentId) := Begun(w, c)],
       jobs := w.jobs[FirstMessage(w, c).id := Entry(FirstMessage(w, c))])
  }

  lemma Starts(w: World, c: Command)
    requires NewPayment(w, c)
    ensures AfterStart(w, c) == Some(Started(w, c))
  {
  }

  lemma MessagesDiffer(p: Provider, w: World, c: Command)
    ensures FirstMessage(w, c).id != SecondMessage(w, c).id
    ensures FirstMessage(w, c).id != LaterMessage(p, w, c).id
  {
    var first, second, later := FirstMessage(w, c).id, SecondMessage(w, c).id, LaterMessage(p, w, c).id;
    assert Print(1) == "1" && Print(2) == "2";
    assert first == (SagaIdOf(c.paymentId) + ":" + "authorize" + ":") + "1";
    assert second == (SagaIdOf(c.paymentId) + ":" + "capture" + ":") + "2";
    assert later == (p.id + ":" + c.paymentId) + ":async";
    assert first[|first| - 1] == '1' && second[|second| - 1] == '2' && later[|later| - 1] == 'c';
  }

  /** The first message in its round. */
  function FirstHandling(w: World, c: Command): World
    requires NewPayment(w, c)
  {
    Handling(Started(w, c), FirstMessage(w, c))
  }

  lemma FirstHandled(p: Provider, w: World, c: Command)
    requires NewPayment(w, c)
    ensures AfterMessage(p, FirstHandling(w, c), FirstMessage(w, c)) ==
            AfterDecision(FirstHandling(w, c), Begun(w, c), FirstMessage(w, c), AuthorisationDecision(p, w, c))
  {
    var m, handling := FirstMessage(w, c), FirstHandling(w, c);
    assert Begun(handling, c) == Begun(w, c) && NewPayment(handling, c);
    assert AuthorisationDecision(p, handling, c) == AuthorisationDecision(p, w, c);
    AuthorisationHandled(p, handling, c, m);
  }

  lemma FirstIsDue(w: World, c: Command)
    requires NewPayment(w, c) && Quiet(w.jobs, w.now)
    ensures OnlyDue(Started(w, c).jobs, w.now, FirstMessage(w, c).id)
  {
  }

  /** The first round, by what the provider does with authorisations. */
  lemma FirstRound(p: Provider, w: World, c: Command)
    requires NewPayment(w, c) && Quiet(w.jobs, w.now)
    ensures AfterTick(p, Started(w, c)) ==
            match AfterDecision(FirstHandling(w, c), Begun(w, c), FirstMessage(w, c), AuthorisationDecision(p, w, c))
            case None => None
            case Some(handled) =>
              Some(handled.(jobs := handled.jobs[FirstMessage(w, c).id := DoneEntry(FirstMessage(w, c))]))
  {
    FirstIsDue(w, c);
    MessageRound(p, Started(w, c), FirstMessage(w, c));
    FirstHandled(p, w, c);
  }

  /** When the whole command succeeds. */
  predicate Startable(p: Provider, w: World, c: Command)
    requires c.paymentId in w.payments
  {
    if Declines(p) then true
    else if Delays(p) then DueTime(p, w) != UNSET
    else Capturable(w.payments[c.paymentId], c.amount)
  }

  /** A job that was run once and is done. */
  predicate RanOnce(jobs: map<string, ScenarioJob>, id: string) {
    id in jobs && jobs[id].job.status == Jobs.Completed && jobs[id].job.attempts == 1
  }

  /** How far the saga and its payment come. */
  predicate Carried(p: Provider, before: World, after: World, c: Command) {
    var id := c.paymentId;
    var saga := SagaIdOf(id);
    id in before.payments && id in after.payments && saga in after.sagas &&
      var payment, later, i := before.payments[id], after.payments[id], after.sagas[saga];
      if Declines(p) then
        && later == payment.(status := Failed, version := payment.version + 1)
        && i.status == StatusFailed && i.completed == [] && i.compensation == []
        && RanOnce(after.jobs, TaggedId(saga, "authorize", 1))
      else if Delays(p) then
        && later == payment
        && i.status == StatusRunning && i.currentStep == StepAuthorize && i.completed == []
        && RanOnce(after.jobs, TaggedId(saga, "authorize", 1))
        && var announced := Announcement(p, before, id);
           announced.id in after.jobs &&
           Waits(after.jobs[announced.id], announced.id, DueTime(p, before), SagaStepOf(LaterMessage(p, before, c)))
      else
        && later == payment.(authorized := payment.amount.amount, captured := c.amount.amount,
             status := if c.amount.amount == payment.amount.amount then Captured else PartiallyCaptured,
             version := payment.version + 2)
        && i.status == StatusCompleted && i.completed == [StepAuthorize, StepCapture] && i.compensation == []
        && RanOnce(after.jobs, TaggedId(saga, "authorize", 1))
        && RanOnce(after.jobs, TaggedId(saga, "capture", 2))
  }

  /** Nothing else changes. */
  predicate Elsewhere(p: Provider, before: World, after: World, c: Command) {
    && after.now == before.now
    && after.payments.Keys == before.payments.Keys
    && (forall k :: k in before.payments && k != c.paymentId ==>
          k in after.payments && after.payments[k] == before.payments[k])
    && (forall k :: k in before.sagas && k != SagaIdOf(c.paymentId) ==>
          k in after.sagas && after.sagas[k] == before.sagas[k])
    && (forall j :: j in before.jobs && !MayWrite(p, before, c, j) ==>
          j in after.jobs && after.jobs[j] == before.jobs[j])
  }

  /** The jobs of the saga's own messages. */
  predicate MayWrite(p: Provider, w: World, c: Command, j: string) {
    j == FirstMessage(w, c).id || j == SecondMessage(w, c).id || j == LaterMessage(p, w, c).id
  }

  lemma Overwritten<V>(m: map<string, V>, k: string, a: V, b: V)
    ensures m[k := a][k := b] == m[k := b]
  {
  }

  /** The world once the authorisation is declined. */
  function Refused(w: World, c: Command): World
    requires NewPayment(w, c)
  {
    var first, payment := FirstMessage(w, c), w.payments[c.paymentId];
    World(w.payments[c.paymentId := payment.(status := Failed, version := payment.version + 1)],
      w.sagas[SagaIdOf(c.paymentId) := Failing(w, c)], w.jobs[first.id := DoneEntry(first)], w.now)
  }

  lemma DeclinedRound(p: Provider, w: World, c: Command)
    requires NewPayment(w, c) && Quiet(w.jobs, w.now) && Declines(p)
    ensures AfterTick(p, Started(w, c)) == Some(Refused(w, c))
  {
    var first, handling := FirstMessage(w, c), FirstHandling(w, c);
    FirstRound(p, w, c);
    AuthorisationFails(handling, c, first);
    Overwritten(w.sagas, SagaIdOf(c.paymentId), Begun(w, c), Failing(w, c));
    Overwritten(w.jobs, first.id, Entry(first), handling.jobs[first.id]);
    Overwritten(w.jobs, first.id, handling.jobs[first.id], DoneEntry(first));
  }

  lemma RefusedIsQuiet(w: World, c: Command)
    requires NewPayment(w, c) && Quiet(w.jobs, w.now)
    ensures Quiet(Refused(w, c).jobs, w.now)
  {
  }

  lemma RefusedCarries(p: Provider, w: World, c: Command)
    requires NewPayment(w, c) && Declines(p)
    ensures Carried(p, w, Refused(w, c), c) && Elsewhere(p, w, Refused(w, c), c)
  {
  }

  lemma StartDeclined(p: Provider, w: World, c: Command)
    requires NewPayment(w, c) && Quiet(w.jobs, w.now) && Declines(p)
    ensures var after := AfterStartSaga(p, w, c);
            after.Some? && Carried(p, w, after.value, c) && Elsewhere(p, w, after.value, c)
  {
    Starts(w, c);
    DeclinedRound(p, w, c);
    RefusedIsQuiet(w, c);
    QuietTick(p, Refused(w, c));
    RefusedCarries(p, w, c);
  }

  /** The first message's job is written three times, another one in between. */
  lemma Rewritten<V>(m: map<string, V>, k: string, a: V, b: V, other: string, x: V, d: V)
    requires k != other
    ensures m[k := a][k := b][other := x][k := d] == m[other := x][k := d]
  {
  }

  /** The jobs after the first round, when it leaves another message. */
  lemma FirstRoundJobs(w: World, c: Command, next: Message)
    requires NewPayment(w, c) && ValidMessage(next) && next.id != FirstMessage(w, c).id
    ensures var first := FirstMessage(w, c);
            FirstHandling(w, c).jobs[next.id := Entry(next)][first.id := DoneEntry(first)] ==
            w.jobs[next.id := Entry(next)][first.id := DoneEntry(first)]
  {
    var first := FirstMessage(w, c);
    Rewritten(w.jobs, first.id, Entry(first), FirstHandling(w, c).jobs[first.id], next.id, Entry(next),
      DoneEntry(first));
  }

  /** The world once the authorisation is announced. */
  function Delayed(p: Provider, w: World, c: Command): World
    requires NewPayment(w, c) && ValidMessage(LaterMessage(p, w, c))
  {
    var first, later := FirstMessage(w, c), LaterMessage(p, w, c);
    Started(w, c).(jobs := w.jobs[later.id := Entry(later)][first.id := DoneEntry(first)])
  }

  lemma DelayedRound(p: Provider, w: World, c: Command)
    requires NewPayment(w, c) && Quiet(w.jobs, w.now) && !Declines(p) && Delays(p) && DueTime(p, w) != UNSET
    ensures ValidMessage(LaterMessage(p, w, c)) && AfterTick(p, Started(w, c)) == Some(Delayed(p, w, c))
  {
    var first, later, handling := FirstMessage(w, c), LaterMessage(p, w, c), FirstHandling(w, c);
    FirstRound(p, w, c);
    MessagesDiffer(p, w, c);
    AuthorisationWaits(p, handling, c, first);
    FirstRoundJobs(w, c, later);
  }

  lemma DelayedIsQuiet(p: Provider, w: World, c: Command)
    requires NewPayment(w, c) && Quiet(w.jobs, w.now) && ValidMessage(LaterMessage(p, w, c))
    ensures Quiet(Delayed(p, w, c).jobs, w.now)
  {
  }

  lemma DelayedCarries(p: Provider, w: World, c: Command)
    requires NewPayment(w, c) && !Declines(p) && Delays(p) && ValidMessage(LaterMessage(p, w, c))
    ensures Carried(p, w, Delayed(p, w, c), c) && Elsewhere(p, w, Delayed(p, w, c), c)
  {
    MessagesDiffer(p, w, c);
  }

  lemma StartDelayed(p: Provider, w: World, c: Command)
    requires NewPayment(w, c) && Quiet(w.jobs, w.now) && !Declines(p) && Delays(p)
    ensures var after := AfterStartSaga(p, w, c);
            (after.Some? <==> DueTime(p, w) != UNSET) &&
            (after.Some? ==> Carried(p, w, after.value, c) && Elsewhere(p, w, after.value, c))
  {
    Starts(w, c);
    if DueTime(p, w) != UNSET {
      DelayedRound(p, w, c);
      DelayedIsQuiet(p, w, c);
      QuietTick(p, Delayed(p, w, c));
      DelayedCarries(p, w, c);
    } else {
      FirstRound(p, w, c);
    }
  }

  /** The world once the payment is authorised. */
  function Middle(w: World, c: Command): World
    requires NewPayment(w, c)
  {
    var first, second := FirstMessage(w, c), SecondMessage(w, c);
    World(w.payments[c.paymentId := AuthorisedPayment(w.payments[c.paymentId])],
      w.sagas[SagaIdOf(c.paymentId) := Authorised(w, c)],
      w.jobs[second.id := Entry(second)][first.id := DoneEntry(first)], w.now)
  }

  lemma ApprovedRound(p: Provider, w: World, c: Command)
    requires NewPayment(w, c) && Quiet(w.jobs, w.now) && !Declines(p) && !Delays(p)
    ensures AfterTick(p, Started(w, c)) == Some(Middle(w, c))
  {
    var first, second, handling := FirstMessage(w, c), SecondMessage(w, c), FirstHandling(w, c);
    FirstRound(p, w, c);
    MessagesDiffer(p, w, c);
    AuthorisationSucceeds(handling, c, first);
    FirstRoundJobs(w, c, second);
    Overwritten(w.sagas, SagaIdOf(c.paymentId), Begun(w, c), Authorised(w, c));
  }

  lemma SecondIsDue(p: Provider, w: World, c: Command)
    requires NewPayment(w, c) && Quiet(w.jobs, w.now)
    ensures OnlyDue(Middle(w, c).jobs, w.now, SecondMessage(w, c).id)
    ensures Middle(w, c).jobs[SecondMessage(w, c).id] == Entry(SecondMessage(w, c))
  {
    MessagesDiffer(p, w, c);
  }

  /** The world once the payment is captured. */
  function Last(w: World, c: Command): World
    requires NewPayment(w, c)
  {
    var second := SecondMessage(w, c);
    World(w.payments[c.paymentId := CapturedPayment(w.payments[c.paymentId], c.amount.amount)],
      w.sagas[SagaIdOf(c.paymentId) := Completing(w, c)],
      Middle(w, c).jobs[second.id := DoneEntry(second)], w.now)
  }

  lemma CaptureRound(p: Provider, w: World, c: Command)
    requires NewPayment(w, c) && Quiet(w.jobs, w.now)
    ensures AfterTick(p, Middle(w, c)) ==
            if Capturable(w.payments[c.paymentId], c.amount) then Some(Last(w, c)) else None
  {
    var second := SecondMessage(w, c);
    SecondIsDue(p, w, c);
    MessageRound(p, Middle(w, c), second);
    var handling := Handling(Middle(w, c), second);
    CaptureHandled(p, w, handling, c, second);
    Overwritten(Middle(w, c).jobs, second.id, handling.jobs[second.id], DoneEntry(second));
    Overwritten(w.sagas, SagaIdOf(c.paymentId), Authorised(w, c), Completing(w, c));
    Overwritten(w.payments, c.paymentId, AuthorisedPayment(w.payments[c.paymentId]),
      CapturedPayment(w.payments[c.paymentId], c.amount.amount));
  }

  lemma LastCarries(p: Provider, w: World, c: Command)
    requires NewPayment(w, c) && !Declines(p) && !Delays(p)
    ensures Carried(p, w, Last(w, c), c) && Elsewhere(p, w, Last(w, c), c)
  {
    MessagesDiffer(p, w, c);
  }

  lemma StartApproved(p: Provider, w: World, c: Command)
    requires NewPayment(w, c) && Quiet(w.jobs, w.now) && !Declines(p) && !Delays(p)
    ensures var after := AfterStartSaga(p, w, c);
            (after.Some? <==> Capturable(w.payments[c.paymentId], c.amount)) &&
            (after.Some? ==> Carried(p, w, after.value, c) && Elsewhere(p, w, after.value, c))
  {
    Starts(w, c);
    ApprovedRound(p, w, c);
    CaptureRound(p, w, c);
    LastCarries(p, w, c);
  }

  /**
   Starting a saga over a new payment, while no other job is due. A declining provider fails
   the payment and the saga. A delaying one changes no payment and leaves the announced
   authorisation for its time. Otherwise the command succeeds exactly when its amount can be
   captured, and then exactly that amount is captured and the saga is completed.
   */
  lemma StartSagaRuns(p: Provider, w: World, c: Command)
    requires c.kind == StartSaga && NewPayment(w, c) && Quiet(w.jobs, w.now)
    ensures var after := AfterCommand(p, w, c).0;
            (after.Some? <==> Startable(p, w, c)) &&
            (after.Some? ==> Carried(p, w, after.value, c) && Elsewhere(p, w, after.value, c))
  {
    if Declines(p) {
      StartDeclined(p, w, c);
    } else if Delays(p) {
      StartDelayed(p, w, c);
    } else {
      StartApproved(p, w, c);
    }
  }
}
