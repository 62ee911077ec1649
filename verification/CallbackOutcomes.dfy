/**
 What the audit of callbacks says happened: each final record is the result of the attempt's
 own request, and an uninterrupted callback leaves exactly its record and its call.
 */
module CallbackOutcomes {
  import Outcomes
  import opened RetryPolicy
  import opened WebhookAudit
  import Jobs
  import Runs = SchedulerRuns

  // ----- One uninterrupted callback -----

  /** The result that is recorded: without an endpoint there is no call, and the attempt failed. */
  function Recorded(found: bool, result: WebhookAudit.Result): WebhookAudit.Result {
    if found && result.outcome != Started then result else WebhookAudit.Result(Failed, 0, result.error)
  }

  lemma AttemptHasId(p: Policy, s: Sys, n: nat)
    requires Constructed(p) && Inv(p, s) && Running(s, n)
    ensures s.scheduler.runs[n].id != ""
  {
    var e := s.scheduler.runs[n];
    assert e in s.scheduler.runs;
    assert Runs.RowOk(Budget(p), s.scheduler.store.rows[e.id]) && s.scheduler.store.rows[e.id].id == e.id;
  }

  /**
   A callback that is not interrupted leaves one record, under its own job and attempt, with
   the delivery of its payload and the result of its call, and has called exactly if the
   endpoint exists. With a payload that names no endpoint it leaves and calls nothing.
   */
  lemma CallbackLeaves(p: Policy, decode: Decoder, s: Sys, n: nat, sequence: nat, found: bool,
                       result: WebhookAudit.Result)
    requires Constructed(p) && Inv(p, s) && Running(s, n) && s.callbacks[n].Entered? && result.outcome != Started
    ensures var (t, key) := (ExecuteSteps(p, decode, s, n, sequence, found, result), s.scheduler.runs[n]);
            && t.scheduler == s.scheduler && t.callbacks == s.callbacks - {n}
            && match decode(s.callbacks[n].payload)
               case None => t.audit == s.audit && t.log == s.log
               case Some(delivery) =>
                 if delivery.endpointId == "" then t.audit == s.audit && t.log == s.log
                 else
                   && t.audit == s.audit[key := AuditRow(delivery, Recorded(found, result).outcome,
                                                         Recorded(found, result).httpStatus, result.error, sequence)]
                   && t.log == s.log + [MarkedStart(key)] + (if found then [Called(key)] else [])
  {
    var key, payload := s.scheduler.runs[n], s.callbacks[n].payload;
    AttemptHasId(p, s, n);
    assert CallbackOk(s.audit, s.log, key, s.callbacks[n]);
    var marked := Next(p, decode, s, Mark(n, sequence));
    if decode(payload).None? || decode(payload).value.endpointId == "" {
      assert marked == SetCallback(s, n, Outcomes.None);
      NothingMore(p, decode, marked, n, found, result);
    } else {
      MarkedConcludes(p, decode, s, marked, n, key, decode(payload).value, sequence, found, result);
    }
  }

  lemma NothingMore(p: Policy, decode: Decoder, s: Sys, n: nat, found: bool, result: WebhookAudit.Result)
    requires Constructed(p) && n !in s.callbacks
    ensures Next(p, decode, Next(p, decode, s, Send(n, found, result)), Conclude(n)) == s
  {
  }

  lemma MarkedConcludes(p: Policy, decode: Decoder, s: Sys, marked: Sys, n: nat, key: Runs.Execution,
                        delivery: Delivery, sequence: nat, found: bool, result: WebhookAudit.Result)
    requires Constructed(p) && n in s.callbacks && n < |s.scheduler.runs| && s.scheduler.runs[n] == key &&
             key !in s.audit
    requires key.id != "" && delivery.endpointId != "" && result.outcome != Started
    requires marked == s.(audit := s.audit[key := AuditRow(delivery, Started, 0, "", sequence)],
                          log := s.log + [MarkedStart(key)], callbacks := s.callbacks[n := Marked(delivery)])
    ensures var t := Next(p, decode, Next(p, decode, marked, Send(n, found, result)), Conclude(n));
            && t.scheduler == s.scheduler && t.callbacks == s.callbacks - {n}
            && t.audit == s.audit[key := AuditRow(delivery, Recorded(found, result).outcome,
                                                  Recorded(found, result).httpStatus, result.error, sequence)]
            && t.log == s.log + [MarkedStart(key)] + (if found then [Called(key)] else [])
  {
    var answer := Recorded(found, result);
    var sent := Next(p, decode, marked, Send(n, found, result));
    assert sent == marked.(log := marked.log + (if found then [Called(key)] else []),
                           callbacks := marked.callbacks[n := Answered(delivery, answer)]);
    var audit := s.audit[key := AuditRow(delivery, answer.outcome, answer.httpStatus, answer.error, sequence)];
    assert sent.audit[key :=
        sent.audit[key].(outcome := answer.outcome, httpStatus := answer.httpStatus, error := answer.error)] == audit;
    assert marked.callbacks[n := Answered(delivery, answer)] - {n} == s.callbacks - {n};
  }

  // ----- Every final record was sent -----

  /** Step `k` of the run is the request of this attempt, with what is recorded of it. */
  ghost predicate SentAt(p: Policy, decode: Decoder, steps: seq<Step>, k: nat, key: Runs.Execution,
                         delivery: Delivery, result: WebhookAudit.Result)
    requires Constructed(p)
  {
    k < |steps| && steps[k].Send? && result == Recorded(steps[k].found, steps[k].result)
    && var s := Run(p, decode, INIT, steps[..k]);
       Running(s, steps[k].n) && s.callbacks[steps[k].n] == Marked(delivery) && s.scheduler.runs[steps[k].n] == key
  }

  ghost predicate Sent(p: Policy, decode: Decoder, steps: seq<Step>, key: Runs.Execution, delivery: Delivery,
                       result: WebhookAudit.Result)
    requires Constructed(p)
  {
    exists k: nat :: SentAt(p, decode, steps, k, key, delivery, result)
  }

  ghost predicate RecordsSent(p: Policy, decode: Decoder, steps: seq<Step>, audit: Table)
    requires Constructed(p)
  {
    forall key :: key in audit && audit[key].outcome != Started ==>
      Sent(p, decode, steps, key, audit[key].metadata,
        WebhookAudit.Result(audit[key].outcome, audit[key].httpStatus, audit[key].error))
  }

  ghost predicate AnswersSent(p: Policy, decode: Decoder, steps: seq<Step>, s: Sys)
    requires Constructed(p)
  {
    forall n :: n in s.callbacks && s.callbacks[n].Answered? ==>
      n < |s.scheduler.runs| &&
        Sent(p, decode, steps, s.scheduler.runs[n], s.callbacks[n].delivery, s.callbacks[n].result)
  }

  lemma SentLasts(p: Policy, decode: Decoder, steps: seq<Step>, step: Step, key: Runs.Execution, delivery: Delivery,
                  result: WebhookAudit.Result)
    requires Constructed(p) && Sent(p, decode, steps, key, delivery, result)
    ensures Sent(p, decode, steps + [step], key, delivery, result)
  {
    var k: nat :| SentAt(p, decode, steps, k, key, delivery, result);
    assert (steps + [step])[..k] == steps[..k];
    assert SentAt(p, decode, steps + [step], k, key, delivery, result);
  }

  /** What a step does to one record: nothing, a start, or the conclusion of an answered callback. */
  lemma OneRecord(p: Policy, decode: Decoder, s: Sys, step: Step, key: Runs.Execution)
    requires Constructed(p) && CallbacksOk(s) && key in Next(p, decode, s, step).audit
    ensures var after := Next(p, decode, s, step).audit[key];
            || (key in s.audit && after == s.audit[key])
            || after.outcome == Started
            || (step.Conclude? && Running(s, step.n) && s.callbacks[step.n].Answered? && s.scheduler.runs[step.n] == key
                && after.metadata == s.callbacks[step.n].delivery
                && WebhookAudit.Result(after.outcome, after.httpStatus, after.error) == s.callbacks[step.n].result)
  {
    match step
    case Conclude(n) =>
      if Running(s, n) && s.callbacks[n].Answered? {
        assert CallbackOk(s.audit, s.log, s.scheduler.runs[n], s.callbacks[n]);
      }
    case _ => OtherRecords(p, decode, s, step, key);
  }

  lemma OtherRecords(p: Policy, decode: Decoder, s: Sys, step: Step, key: Runs.Execution)
    requires Constructed(p) && !step.Conclude? && key in Next(p, decode, s, step).audit
    ensures var after := Next(p, decode, s, step).audit[key];
            (key in s.audit && after == s.audit[key]) || after.outcome == Started
  {
  }

  lemma StepRecords(p: Policy, decode: Decoder, steps: seq<Step>, step: Step)
    requires Constructed(p)
    requires var s := Run(p, decode, INIT, steps);
             Inv(p, s) && RecordsSent(p, decode, steps, s.audit) && AnswersSent(p, decode, steps, s)
    ensures RecordsSent(p, decode, steps + [step], Next(p, decode, Run(p, decode, INIT, steps), step).audit)
  {
    var s := Run(p, decode, INIT, steps);
    var t := Next(p, decode, s, step);
    forall key | key in t.audit && t.audit[key].outcome != Started
      ensures Sent(p, decode, steps + [step], key, t.audit[key].metadata,
              WebhookAudit.Result(t.audit[key].outcome, t.audit[key].httpStatus, t.audit[key].error))
    {
      OneRecord(p, decode, s, step, key);
      SentLasts(p, decode, steps, step, key, t.audit[key].metadata,
        WebhookAudit.Result(t.audit[key].outcome, t.audit[key].httpStatus, t.audit[key].error));
    }
  }

  /** What a step does to an answered callback. */
  lemma OneAnswer(p: Policy, decode: Decoder, s: Sys, step: Step, n: nat)
    requires Constructed(p) && n in Next(p, decode, s, step).callbacks &&
             Next(p, decode, s, step).callbacks[n].Answered?
    ensures var t := Next(p, decode, s, step);
            || (n in s.callbacks && t.callbacks[n] == s.callbacks[n])
            || (step.Send? && step.n == n && Running(s, n) && s.callbacks[n] == Marked(t.callbacks[n].delivery)
                && t.callbacks[n].result == Recorded(step.found, step.result))
  {
  }

  lemma RunsStay(p: Policy, decode: Decoder, s: Sys, step: Step, n: nat)
    requires Constructed(p) && n < |s.scheduler.runs|
    ensures var t := Next(p, decode, s, step); n < |t.scheduler.runs| && t.scheduler.runs[n] == s.scheduler.runs[n]
  {
    match step
    case Schedule(inner) => RunsGrow(p, s.scheduler, inner);
    case _ => assert Next(p, decode, s, step).scheduler == s.scheduler;
  }

  lemma StepAnswersSent(p: Policy, decode: Decoder, steps: seq<Step>, step: Step)
    requires Constructed(p) && Inv(p, Run(p, decode, INIT, steps)) &&
             AnswersSent(p, decode, steps, Run(p, decode, INIT, steps))
    ensures AnswersSent(p, decode, steps + [step], Next(p, decode, Run(p, decode, INIT, steps), step))
  {
    var s := Run(p, decode, INIT, steps);
    var t := Next(p, decode, s, step);
    forall n | n in t.callbacks && t.callbacks[n].Answered?
      ensures n < |t.scheduler.runs| &&
              Sent(p, decode, steps + [step], t.scheduler.runs[n], t.callbacks[n].delivery, t.callbacks[n].result)
    {
      OneAnswer(p, decode, s, step, n);
      assert n in s.callbacks && n < |s.scheduler.runs|;
      RunsStay(p, decode, s, step, n);
      if n in s.callbacks && t.callbacks[n] == s.callbacks[n] {
        SentLasts(p, decode, steps, step, s.scheduler.runs[n], t.callbacks[n].delivery, t.callbacks[n].result);
      } else {
        assert (steps + [step])[..|steps|] == steps;
        assert SentAt(p, decode, steps + [step], |steps|,
            s.scheduler.runs[n], t.callbacks[n].delivery, t.callbacks[n].result);
      }
    }
  }

  ghost predicate AllSent(p: Policy, decode: Decoder, steps: seq<Step>)
    requires Constructed(p)
  {
    var s := Run(p, decode, INIT, steps);
    Inv(p, s) && RecordsSent(p, decode, steps, s.audit) && AnswersSent(p, decode, steps, s)
  }

  /**
   In every run each final record of an attempt tells what its own request came to, with the
   delivery that the request was for: a success is recorded only after a call that
   succeeded, and an attempt without an endpoint as a failure without a status.
   */
  lemma {:induction false} FinalRecordsWereSent(p: Policy, decode: Decoder, steps: seq<Step>)
    requires Constructed(p)
    ensures AllSent(p, decode, steps)
  {
    RunKeepsInv(p, decode, steps);
    if steps != [] {
      var init, last := steps[..|steps| - 1], steps[|steps| - 1];
      FinalRecordsWereSent(p, decode, init);
      StepRecords(p, decode, init, last);
      StepAnswersSent(p, decode, init, last);
      assert init + [last] == steps;
    }
  }
}
