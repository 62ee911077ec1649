/**
 Outbound callbacks and their audit (internal/webhook/application/deliver_callback.go and
 internal/webhook/adapters/sqlite/delivery_audit.go), run as the handler of the durable
 scheduler: each handler call of the scheduler model enters one callback.
 */
module WebhookAudit {
  import opened Outcomes
  import opened RetryPolicy
  import Jobs
  import Runs = SchedulerRuns

  const DELIVERY_JOB_TYPE := "webhook.delivery"

  datatype Outcome = Started | Succeeded | Failed

  datatype Delivery = Delivery(endpointId: string, correlationId: string, causationId: string)

  datatype AuditRow = AuditRow(metadata: Delivery, outcome: Outcome, httpStatus: int, error: string, sequence: nat)

  type Table = map<Runs.Execution, AuditRow>

  /** Reads a job payload; nothing for a payload that is not a valid delivery. */
  type Decoder = Jobs.Bytes -> Option<Delivery>

  /** What became of a request. */
  datatype Result = Result(outcome: Outcome, httpStatus: int, error: string)

  // ----- The audit table -----

  /** A start marker is inserted unless one exists; an existing one must carry the same metadata. */
  function RecordStart(audit: Table, key: Runs.Execution, delivery: Delivery, sequence: nat): Option<Table> {
    if key.id == "" || delivery.endpointId == "" then None
    else if key !in audit then Some(audit[key := AuditRow(delivery, Started, 0, "", sequence)])
    else if audit[key].metadata != delivery then None
    else Some(audit)
  }

  /** A result replaces a start marker; a recorded result can only be repeated. */
  function RecordTerminal(audit: Table, key: Runs.Execution, delivery: Delivery, result: Result): Option<Table> {
    if key.id == "" || delivery.endpointId == "" then None
    else if key !in audit then None
    else if audit[key].outcome == Started then
      Some(audit[key := audit[key].(outcome := result.outcome, httpStatus := result.httpStatus, error := result.error)])
    else if audit[key] == AuditRow(delivery, result.outcome, result.httpStatus, result.error, audit[key].sequence) then
      Some(audit)
    else None
  }

  class DeliveryAudit {
    var rows: Table

    constructor ()
      ensures rows == map[]
    {
      rows := map[];
    }

    method Record(key: Runs.Execution, delivery: Delivery, result: Result, sequence: nat) returns (failed: bool)
      modifies this
      ensures match (if result.outcome == Started then RecordStart(old(rows), key, delivery, sequence)
                else RecordTerminal(old(rows), key, delivery, result))
              case Some(after) => rows == after && !failed
              case None => rows == old(rows) && failed
    {
      if key.id == "" || delivery.endpointId == "" {
        return true;
      }
      if result.outcome == Started {
        if key !in rows {
          rows := rows[key := AuditRow(delivery, Started, 0, "", sequence)];
          return false;
        }
        return rows[key].metadata != delivery;
      }
      if key in rows && rows[key].outcome == Started {
        rows := rows[key :=
          rows[key].(outcome := result.outcome, httpStatus := result.httpStatus, error := result.error)];
        return false;
      }
      if key !in rows {
        return true;
      }
      var row := rows[key];
      return !(row.metadata == delivery && row.outcome == result.outcome && row.httpStatus == result.httpStatus &&
          row.error == result.error);
    }
  }

  // ----- Callbacks under the scheduler -----

  datatype Callback =
    | Entered(payload: Jobs.Bytes)
    | Marked(delivery: Delivery)                      // the start marker is committed
    | Answered(delivery: Delivery, result: Result)    // the result awaits its record

  datatype Entry = MarkedStart(key: Runs.Execution) | Called(key: Runs.Execution)

  /**
   Callback `n` is entered by the `n`-th handler call of the scheduler; `log` lists
   committed starts and HTTP calls.
   */
  datatype Sys = Sys(scheduler: Runs.Sys, audit: Table, callbacks: map<nat, Callback>, log: seq<Entry>)

  const INIT := Sys(Runs.INIT, map[], map[], [])

  datatype Step =
    | Schedule(step: Runs.Step)
    | Mark(n: nat, sequence: nat)
    | Send(n: nat, found: bool, result: Result) // without an endpoint there is no call
    | Conclude(n: nat)
    | Lose(n: nat)

  predicate Enters(s: Sys, step: Runs.Step) {
    step.RunHandler? && Runs.InPhase(s.scheduler, step.h, Runs.Saved) &&
      s.scheduler.handles[step.h].job.jobType == DELIVERY_JOB_TYPE
  }

  function AfterSchedule(p: Policy, s: Sys, step: Runs.Step): Sys
    requires Constructed(p)
  {
    Sys(Runs.Next(p, s.scheduler, step), s.audit,
        if Enters(s, step) then
          s.callbacks[|s.scheduler.runs| := Entered(s.scheduler.handles[step.h].job.payload)]
        else s.callbacks,
        s.log)
  }

  function SetCallback(s: Sys, n: nat, callback: Option<Callback>): Sys {
    s.(callbacks := if callback.Some? then s.callbacks[n := callback.value] else s.callbacks - {n})
  }

  function AfterMark(decode: Decoder, s: Sys, n: nat, key: Runs.Execution, payload: Jobs.Bytes, sequence: nat): Sys {
    match decode(payload)
    case None => SetCallback(s, n, None)
    case Some(delivery) =>
      match RecordStart(s.audit, key, delivery, sequence)
      case None => SetCallback(s, n, None)
      case Some(audit) =>
        SetCallback(s.(audit := audit, log := if key in s.audit then s.log else s.log + [MarkedStart(key)]), n,
          Some(Marked(delivery)))
  }

  function AfterSend(s: Sys, n: nat, key: Runs.Execution, delivery: Delivery, found: bool, result: Result): Sys {
    var answer := if found && result.outcome != Started then result else Result(Failed, 0, result.error);
    SetCallback(s.(log := if found then s.log + [Called(key)] else s.log), n, Some(Answered(delivery, answer)))
  }

  function AfterConclude(s: Sys, n: nat, key: Runs.Execution, delivery: Delivery, result: Result): Sys {
    match RecordTerminal(s.audit, key, delivery, result)
    case None => SetCallback(s, n, None)
    case Some(audit) => SetCallback(s.(audit := audit), n, None)
  }

  predicate Running(s: Sys, n: nat) {
    n in s.callbacks && n < |s.scheduler.runs|
  }

  function Next(p: Policy, decode: Decoder, s: Sys, step: Step): Sys
    requires Constructed(p)
  {
    match step
    case Schedule(step) => AfterSchedule(p, s, step)
    case Mark(n, sequence) =>
      if Running(s, n) && s.callbacks[n].Entered? then
        AfterMark(decode, s, n, s.scheduler.runs[n], s.callbacks[n].payload, sequence)
      else s
    case Send(n, found, result) =>
      if Running(s, n) && s.callbacks[n].Marked? then
        AfterSend(s, n, s.scheduler.runs[n], s.callbacks[n].delivery, found, result)
      else s
    case Conclude(n) =>
      if Running(s, n) && s.callbacks[n].Answered? then
        AfterConclude(s, n, s.scheduler.runs[n], s.callbacks[n].delivery, s.callbacks[n].result)
      else s
    case Lose(n) => SetCallback(s, n, None)
  }

  function Run(p: Policy, decode: Decoder, s: Sys, steps: seq<Step>): Sys
    requires Constructed(p)
  {
    if steps == [] then s else Next(p, decode, Run(p, decode, s, steps[..|steps| - 1]), steps[|steps| - 1])
  }

  // ----- Records are write-once -----

  /** A row keeps its metadata; its outcome changes at most from started to a final one. */
  predicate RowStep(before: AuditRow, after: AuditRow) {
    || after == before
    || (before.outcome == Started && after.outcome != Started && after.metadata == before.metadata &&
       after.sequence == before.sequence)
  }

  ghost predicate TableStep(before: Table, after: Table) {
    forall k :: k in before ==> k in after && RowStep(before[k], after[k])
  }

  predicate FinalResult(callback: Callback) {
    callback.Answered? ==> callback.result.outcome != Started
  }

  /** Every step keeps every audit row but for one change from started to a final outcome. */
  lemma AuditIsWriteOnce(p: Policy, decode: Decoder, s: Sys, step: Step)
    requires Constructed(p) && forall n :: n in s.callbacks ==> FinalResult(s.callbacks[n])
    ensures TableStep(s.audit, Next(p, decode, s, step).audit)
  {
    if step.Conclude? && Running(s, step.n) {
      assert FinalResult(s.callbacks[step.n]);
    }
  }

  // ----- Every call has its own committed start -----

  predicate Has(log: seq<Entry>, e: Entry) {
    log != [] && (log[|log| - 1] == e || Has(log[..|log| - 1], e))
  }

  lemma HasSnoc(log: seq<Entry>, e: Entry, f: Entry)
    ensures Has(log + [e], f) <==> e == f || Has(log, f)
  {
    assert (log + [e])[..|log|] == log;
  }

  /** No start and no call is repeated, and every call comes after the start of its own attempt. */
  predicate Disciplined(log: seq<Entry>) {
    log == [] || (
      var init, last := log[..|log| - 1], log[|log| - 1];
      Disciplined(init) && !Has(init, last) && (last.Called? ==> Has(init, MarkedStart(last.key))))
  }

  /** A callback and what was recorded for its attempt. */
  predicate CallbackOk(audit: Table, log: seq<Entry>, key: Runs.Execution, callback: Callback) {
    match callback
    case Entered(_) => key !in audit && !Has(log, MarkedStart(key)) && !Has(log, Called(key))
    case Marked(delivery) =>
      key in audit && audit[key].metadata == delivery && audit[key].outcome == Started && Has(log, MarkedStart(key)) &&
        !Has(log, Called(key))
    case Answered(delivery, result) =>
      key in audit && audit[key].metadata == delivery && audit[key].outcome == Started && result.outcome != Started
  }

  ghost predicate CallbacksOk(s: Sys) {
    match s
    case Sys(scheduler, audit, callbacks, log) =>
      forall n :: n in callbacks ==> n < |scheduler.runs| && CallbackOk(audit, log, scheduler.runs[n], callbacks[n])
  }

  /** Only attempts that ran are recorded. */
  ghost predicate RecordsOk(s: Sys) {
    match s
    case Sys(scheduler, audit, _, log) =>
      && (forall k :: k in audit ==> k in scheduler.runs)
      && (forall k :: Has(log, MarkedStart(k)) ==> k in audit)
      && (forall k :: Has(log, Called(k)) ==> k in audit)
      && Disciplined(log)
  }

  ghost predicate Inv(p: Policy, s: Sys)
    requires Constructed(p)
  {
    match s
    case Sys(scheduler, _, _, _) => Runs.Inv(Budget(p), scheduler) && CallbacksOk(s) && RecordsOk(s)
  }

  lemma RunsGrow(p: Policy, s: Runs.Sys, step: Runs.Step)
    requires Constructed(p)
    ensures Runs.Next(p, s, step).runs
         == if step.RunHandler? && Runs.InPhase(s, step.h, Runs.Saved) then s.runs + [Runs.Started(s, step.h)]
             else s.runs
  {
  }

  /** The scheduler's handler calls grow by at most one, which may enter a callback. */
  predicate Grown(s: Sys, t: Sys) {
    var n := |s.scheduler.runs|;
    && t.audit == s.audit && t.log == s.log
    && n <= |t.scheduler.runs| <= n + 1 && t.scheduler.runs[..n] == s.scheduler.runs
    && (t.callbacks == s.callbacks
        || (|t.scheduler.runs| == n + 1 && n in t.callbacks && t.callbacks[n].Entered? &&
           t.callbacks == s.callbacks[n := t.callbacks[n]]))
  }

  lemma ScheduleGrows(p: Policy, s: Sys, step: Runs.Step)
    requires Constructed(p)
    ensures Grown(s, AfterSchedule(p, s, step))
  {
    RunsGrow(p, s.scheduler, step);
  }

  lemma ScheduleKeepsInv(p: Policy, s: Sys, step: Runs.Step)
    requires Constructed(p) && Inv(p, s)
    ensures Inv(p, AfterSchedule(p, s, step))
  {
    Runs.StepKeepsInv(p, s.scheduler, step);
    ScheduleGrows(p, s, step);
    GrowthKeepsCallbacks(p, s, AfterSchedule(p, s, step));
    GrowthKeepsRecords(s, AfterSchedule(p, s, step));
  }

  lemma GrowthKeepsCallbacks(p: Policy, s: Sys, t: Sys)
    requires Constructed(p) && Inv(p, s) && Grown(s, t) && Runs.RunsOk(t.scheduler)
    ensures CallbacksOk(t)
  {
    var n := |s.scheduler.runs|;
    if n < |t.scheduler.runs| {
      NewRunIsFresh(p, s, t.scheduler);
    }
    forall i | i in t.callbacks
      ensures i < |t.scheduler.runs| && CallbackOk(t.audit, t.log, t.scheduler.runs[i], t.callbacks[i])
    {
      if i in s.callbacks {
        assert CallbackOk(s.audit, s.log, s.scheduler.runs[i], s.callbacks[i]);
        assert t.scheduler.runs[..n][i] == t.scheduler.runs[i];
      }
    }
  }

  lemma GrowthKeepsRecords(s: Sys, t: Sys)
    requires RecordsOk(s) && Grown(s, t)
    ensures RecordsOk(t)
  {
    forall k | k in t.audit
      ensures k in t.scheduler.runs
    {
      assert k in t.scheduler.runs[..|s.scheduler.runs|];
    }
  }

  lemma NewRunIsFresh(p: Policy, s: Sys, after: Runs.Sys)
    requires Constructed(p) && Inv(p, s) && Runs.RunsOk(after)
    requires |after.runs| == |s.scheduler.runs| + 1 && after.runs[..|s.scheduler.runs|] == s.scheduler.runs
    ensures var e := after.runs[|s.scheduler.runs|];
            e !in s.audit && !Has(s.log, MarkedStart(e)) && !Has(s.log, Called(e))
  {
    var n := |s.scheduler.runs|;
    forall i | 0 <= i < n
      ensures s.scheduler.runs[i] != after.runs[n]
    {
      assert after.runs[..n][i] == after.runs[i];
    }
  }

  /** Changing one callback and what is recorded of its own attempt. */
  lemma OwnChangeKeepsCallbacks(s: Sys, t: Sys, n: nat)
    requires CallbacksOk(s) && Runs.RunsOk(s.scheduler) && Running(s, n) && t.scheduler == s.scheduler
    requires var key := s.scheduler.runs[n];
             && (forall k ::
                  k != key ==> (k in t.audit <==> k in s.audit) && (k in s.audit ==> t.audit[k] == s.audit[k]))
             && (forall k :: k != key ==> (Has(t.log, MarkedStart(k)) <==> Has(s.log, MarkedStart(k))))
             && (forall k :: k != key ==> (Has(t.log, Called(k)) <==> Has(s.log, Called(k))))
             && (n in t.callbacks ==> CallbackOk(t.audit, t.log, key, t.callbacks[n]))
    requires forall i :: i in t.callbacks && i != n ==> i in s.callbacks && t.callbacks[i] == s.callbacks[i]
    ensures CallbacksOk(t)
  {
    forall i | i in t.callbacks
      ensures i < |t.scheduler.runs| && CallbackOk(t.audit, t.log, t.scheduler.runs[i], t.callbacks[i])
    {
      if i != n {
        assert CallbackOk(s.audit, s.log, s.scheduler.runs[i], s.callbacks[i]);
        assert s.scheduler.runs[i] != s.scheduler.runs[n];
      }
    }
  }

  lemma DropKeepsInv(p: Policy, s: Sys, n: nat)
    requires Constructed(p) && Inv(p, s)
    ensures Inv(p, SetCallback(s, n, None))
  {
  }

  /** What is said of callbacks and records, apart from the scheduler. */
  ghost predicate RecordInv(s: Sys) {
    CallbacksOk(s) && RecordsOk(s) && Runs.RunsOk(s.scheduler)
  }

  lemma RecordInvSuffices(p: Policy, s: Sys, t: Sys)
    requires Constructed(p) && Inv(p, s) && t.scheduler == s.scheduler && RecordInv(t)
    ensures Inv(p, t)
  {
  }

  lemma OneMoreEntry(log: seq<Entry>, e: Entry)
    ensures forall f :: Has(log + [e], f) <==> f == e || Has(log, f)
    ensures Disciplined(log + [e]) <==> Disciplined(log) && !Has(log, e) && (e.Called? ==> Has(log, MarkedStart(e.key)))
  {
    assert (log + [e])[..|log|] == log;
    forall f
      ensures Has(log + [e], f) <==> f == e || Has(log, f)
    {
      HasSnoc(log, e, f);
    }
  }

  lemma DropKeepsRecords(s: Sys, n: nat)
    requires RecordInv(s)
    ensures RecordInv(SetCallback(s, n, None))
  {
  }

  lemma MarkKeepsRecords(decode: Decoder, s: Sys, n: nat, sequence: nat)
    requires RecordInv(s) && Running(s, n) && s.callbacks[n].Entered?
    ensures RecordInv(AfterMark(decode, s, n, s.scheduler.runs[n], s.callbacks[n].payload, sequence))
  {
    var key, payload := s.scheduler.runs[n], s.callbacks[n].payload;
    assert CallbackOk(s.audit, s.log, key, s.callbacks[n]);
    if decode(payload).None? || RecordStart(s.audit, key, decode(payload).value, sequence).None? {
      DropKeepsRecords(s, n);
    } else {
      var t := AfterMark(decode, s, n, key, payload, sequence);
      assert t.log == s.log + [MarkedStart(key)];
      OneMoreEntry(s.log, MarkedStart(key));
      OwnChangeKeepsCallbacks(s, t, n);
    }
  }

  lemma SendKeepsRecords(s: Sys, n: nat, found: bool, result: Result)
    requires RecordInv(s) && Running(s, n) && s.callbacks[n].Marked?
    ensures RecordInv(AfterSend(s, n, s.scheduler.runs[n], s.callbacks[n].delivery, found, result))
  {
    var key := s.scheduler.runs[n];
    assert CallbackOk(s.audit, s.log, key, s.callbacks[n]);
    OneMoreEntry(s.log, Called(key));
    OwnChangeKeepsCallbacks(s, AfterSend(s, n, key, s.callbacks[n].delivery, found, result), n);
  }

  lemma ConcludeKeepsRecords(s: Sys, n: nat)
    requires RecordInv(s) && Running(s, n) && s.callbacks[n].Answered?
    ensures RecordInv(AfterConclude(s, n, s.scheduler.runs[n], s.callbacks[n].delivery, s.callbacks[n].result))
  {
    var key := s.scheduler.runs[n];
    assert CallbackOk(s.audit, s.log, key, s.callbacks[n]);
    OwnChangeKeepsCallbacks(s, AfterConclude(s, n, key, s.callbacks[n].delivery, s.callbacks[n].result), n);
  }

  lemma {:induction false} StepKeepsInv(p: Policy, decode: Decoder, s: Sys, step: Step)
    requires Constructed(p) && Inv(p, s)
    ensures Inv(p, Next(p, decode, s, step))
  {
    match step
    case Schedule(step) => ScheduleKeepsInv(p, s, step);
    case Mark(n, sequence) =>
      if Running(s, n) && s.callbacks[n].Entered? {
        MarkKeepsRecords(decode, s, n, sequence);
        RecordInvSuffices(p, s, Next(p, decode, s, step));
      }
    case Send(n, found, result) =>
      if Running(s, n) && s.callbacks[n].Marked? {
        SendKeepsRecords(s, n, found, result);
        RecordInvSuffices(p, s, Next(p, decode, s, step));
      }
    case Conclude(n) =>
      if Running(s, n) && s.callbacks[n].Answered? {
        ConcludeKeepsRecords(s, n);
        RecordInvSuffices(p, s, Next(p, decode, s, step));
      }
    case Lose(n) => DropKeepsInv(p, s, n);
  }

  lemma InitInv(p: Policy)
    requires Constructed(p)
    ensures Inv(p, INIT)
  {
    Runs.RunKeepsInv(p, []);
  }

  lemma {:induction false} RunKeepsInv(p: Policy, decode: Decoder, steps: seq<Step>)
    requires Constructed(p)
    ensures Inv(p, Run(p, decode, INIT, steps))
  {
    if steps == [] {
      InitInv(p);
    } else {
      RunKeepsInv(p, decode, steps[..|steps| - 1]);
      StepKeepsInv(p, decode, Run(p, decode, INIT, steps[..|steps| - 1]), steps[|steps| - 1]);
    }
  }

  /**
   In every run of workers and callbacks, with crashes anywhere, each HTTP call was
   preceded by the commit of a start record of its own job and attempt, no attempt is
   called twice, and every recorded attempt is a handler call of the scheduler.
   */
  lemma CallsHaveTheirOwnStart(p: Policy, decode: Decoder, steps: seq<Step>, j: nat)
    requires Constructed(p) && j < |Run(p, decode, INIT, steps).log| && Run(p, decode, INIT, steps).log[j].Called?
    ensures var s := Run(p, decode, INIT, steps);
            && (exists i :: 0 <= i < j && s.log[i] == MarkedStart(s.log[j].key))
            && (forall i :: 0 <= i < |s.log| && i != j ==> s.log[i] != s.log[j])
            && s.log[j].key in s.audit && s.log[j].key in s.scheduler.runs
  {
    RunKeepsInv(p, decode, steps);
    var s := Run(p, decode, INIT, steps);
    DisciplinedAt(s.log, j);
    HasAt(s.log, j);
  }

  lemma {:induction false} HasAt(log: seq<Entry>, i: nat)
    requires i < |log|
    ensures Has(log, log[i])
  {
    if i < |log| - 1 {
      HasAt(log[..|log| - 1], i);
    }
  }

  lemma {:induction false} HasIndex(log: seq<Entry>, e: Entry)
    requires Has(log, e)
    ensures exists i :: 0 <= i < |log| && log[i] == e
  {
    if log[|log| - 1] != e {
      HasIndex(log[..|log| - 1], e);
      var i :| 0 <= i < |log| - 1 && log[..|log| - 1][i] == e;
      assert log[i] == e;
    }
  }

  lemma {:induction false} DisciplinedAt(log: seq<Entry>, j: nat)
    requires Disciplined(log) && j < |log|
    ensures log[j].Called? ==> exists i :: 0 <= i < j && log[i] == MarkedStart(log[j].key)
    ensures forall i :: 0 <= i < |log| && i != j ==> log[i] != log[j]
  {
    var init, last := log[..|log| - 1], |log| - 1;
    if j < last {
      DisciplinedAt(init, j);
      HasAt(init, j);
      assert init[j] == log[j];
      if log[j].Called? {
        var i :| 0 <= i < j && init[i] == MarkedStart(init[j].key);
        assert log[i] == MarkedStart(log[j].key);
      }
      forall i | 0 <= i < |log| && i != j
        ensures log[i] != log[j]
      {
        assert i < last ==> init[i] == log[i];
      }
    } else {
      if log[j].Called? {
        HasIndex(init, MarkedStart(log[j].key));
      }
      forall i | 0 <= i < |log| && i != j
        ensures log[i] != log[j]
      {
        HasAt(init, i);
      }
    }
  }

  lemma TableStepsCompose(first: Table, second: Table, third: Table)
    requires TableStep(first, second) && TableStep(second, third)
    ensures TableStep(first, third)
  {
    forall k | k in first
      ensures k in third && RowStep(first[k], third[k])
    {
      assert RowStep(first[k], second[k]) && RowStep(second[k], third[k]);
    }
  }

  lemma InvMeansFinalResults(p: Policy, s: Sys)
    requires Constructed(p) && Inv(p, s)
    ensures forall n :: n in s.callbacks ==> FinalResult(s.callbacks[n])
  {
    forall n | n in s.callbacks
      ensures FinalResult(s.callbacks[n])
    {
      assert CallbackOk(s.audit, s.log, s.scheduler.runs[n], s.callbacks[n]);
    }
  }

  /** Along every run, a recorded attempt keeps its metadata, and its outcome once it is final. */
  lemma {:induction false} RecordsLast(p: Policy, decode: Decoder, s: Sys, steps: seq<Step>)
    requires Constructed(p) && Inv(p, s)
    ensures Inv(p, Run(p, decode, s, steps)) && TableStep(s.audit, Run(p, decode, s, steps).audit)
  {
    if steps != [] {
      var init := steps[..|steps| - 1];
      RecordsLast(p, decode, s, init);
      var t := Run(p, decode, s, init);
      StepKeepsInv(p, decode, t, steps[|steps| - 1]);
      InvMeansFinalResults(p, t);
      AuditIsWriteOnce(p, decode, t, steps[|steps| - 1]);
      TableStepsCompose(s.audit, t.audit, Next(p, decode, t, steps[|steps| - 1]).audit);
    }
  }

  // ----- The callback as one uninterrupted call -----

  function ExecuteSteps(p: Policy, decode: Decoder, s: Sys, n: nat, sequence: nat, found: bool, result: Result): Sys
    requires Constructed(p)
  {
    Next(p, decode, Next(p, decode, Next(p, decode, s, Mark(n, sequence)), Send(n, found, result)), Conclude(n))
  }

  class OutboundCallback {
    const audit: DeliveryAudit
    const decode: Decoder

    constructor (decode: Decoder)
      ensures fresh(audit) && audit.rows == map[] && this.decode == decode
    {
      this.decode := decode;
      audit := new DeliveryAudit();
    }

    /**
     `found` is whether the endpoint exists, `result` what its call yields. The audit
     and the calls made are those of the model's three steps.
     */
    method Execute(p: Policy, key: Runs.Execution, payload: Jobs.Bytes, sequence: nat, found: bool, result: Result,
                   ghost s: Sys, ghost n: nat)
      returns (calls: seq<Runs.Execution>, failed: bool)
      requires Constructed(p) && Running(s, n) && s.callbacks[n] == Entered(payload)
      requires s.scheduler.runs[n] == key && s.audit == audit.rows && key !in s.audit && result.outcome != Started
      modifies audit
      ensures var t := ExecuteSteps(p, decode, s, n, sequence, found, result);
              && audit.rows == t.audit && n !in t.callbacks
              && (calls == [] || calls == [key])
              && t.log == s.log + (if key in t.audit then [MarkedStart(key)] else []) +
                 (if calls == [] then [] else [Called(key)])
      ensures !failed ==> calls == [key] && result.outcome == Succeeded
    {
      calls := [];
      var decoded := decode(payload);
      if decoded.None? {
        return calls, true;
      }
      var delivery := decoded.value;
      var refused := audit.Record(key, delivery, Result(Started, 0, ""), sequence);
      if refused {
        return calls, true;
      }
      if !found {
        var unrecorded := audit.Record(key, delivery, Result(Failed, 0, result.error), sequence);
        return calls, true;
      }
      calls := [key];
      var unrecorded := audit.Record(key, delivery, result, sequence);
      failed := unrecorded || result.outcome != Succeeded;
    }
  }
}
