/**
 What handlers answered to the jobs that are completed, waiting for a retry or exhausted,
 over every run of the scheduler.
 */
module SchedulerAnswers {
  import opened Outcomes
  import opened RetryPolicy
  import opened Jobs
  import opened JobStore
  import opened SchedulerRuns
  import opened SchedulerOutcomes
  import opened Worker

  // ----- Every outcome was answered -----

  /** Step `k` of the run is the return of a handler that was called for this attempt. */
  ghost predicate AnswersAt(p: Policy, steps: seq<Step>, k: nat, id: string, attempt: uint64, succeeded: bool)
    requires Constructed(p)
  {
    k < |steps| && steps[k].Finish? && steps[k].succeeded == succeeded
    && var s := Exec(p, INIT, steps[..k]);
       InPhase(s, steps[k].h, Ran) && Started(s, steps[k].h) == Execution(id, attempt) &&
         Execution(id, attempt) in s.runs
  }

  ghost predicate Answered(p: Policy, steps: seq<Step>, id: string, attempt: uint64, succeeded: bool)
    requires Constructed(p)
  {
    exists k: nat :: AnswersAt(p, steps, k, id, attempt, succeeded)
  }

  /** Completion follows success, and another wait follows failure. */
  ghost predicate OutcomeAnswered(p: Policy, steps: seq<Step>, job: JobState)
    requires Constructed(p)
  {
    && (job.status == Completed ==> Answered(p, steps, job.id, job.attempts, true))
    && (job.status == Pending && job.attempts > 0 ==> Answered(p, steps, job.id, job.attempts, false))
  }

  ghost predicate RowsAnswered(p: Policy, steps: seq<Step>, rows: map<string, JobState>)
    requires Constructed(p)
  {
    forall id :: id in rows ==> rows[id].id == id && OutcomeAnswered(p, steps, rows[id])
  }

  ghost predicate HandlesAnswered(p: Policy, steps: seq<Step>, s: Sys)
    requires Constructed(p)
  {
    && (forall h :: InPhase(s, h, Ending) ==> OutcomeAnswered(p, steps, s.handles[h].job))
    && (forall h :: InPhase(s, h, Ran) ==> Started(s, h) in s.runs && s.handles[h].job.status == Running)
    && (forall h :: InPhase(s, h, Starting) ==> s.handles[h].job.status == Running)
    && (forall h :: InPhase(s, h, Saved) ==> s.handles[h].job.status == Running)
    && (forall h :: InPhase(s, h, Acquired) ==> s.handles[h].job.status == Leased)
  }

  lemma AnswerLasts(p: Policy, steps: seq<Step>, step: Step, job: JobState)
    requires Constructed(p) && OutcomeAnswered(p, steps, job)
    ensures OutcomeAnswered(p, steps + [step], job)
  {
    forall succeeded | Answered(p, steps, job.id, job.attempts, succeeded)
      ensures Answered(p, steps + [step], job.id, job.attempts, succeeded)
    {
      var k: nat :| AnswersAt(p, steps, k, job.id, job.attempts, succeeded);
      assert (steps + [step])[..k] == steps[..k];
      assert AnswersAt(p, steps + [step], k, job.id, job.attempts, succeeded);
    }
  }

  /** What a worker concludes with follows from its handler's answer. */
  lemma FinishAnswers(p: Policy, steps: seq<Step>, h: nat, succeeded: bool, now: int)
    requires Constructed(p)
    requires var s := Exec(p, INIT, steps);
             InPhase(s, h, Ran) && Started(s, h) in s.runs && FinishJob(p, s.handles[h].job, succeeded, now).Some?
    requires Exec(p, INIT, steps).handles[h].job.status == Running
    ensures var s := Exec(p, INIT, steps);
            OutcomeAnswered(p, steps + [Finish(h, succeeded, now)],
              FinishJob(p, s.handles[h].job, succeeded, now).value)
  {
    var s, more := Exec(p, INIT, steps), steps + [Finish(h, succeeded, now)];
    var job := s.handles[h].job;
    assert more[..|steps|] == steps;
    assert AnswersAt(p, more, |steps|, job.id, job.attempts, succeeded);
    FinishDecides(p, job, succeeded, now);
  }

  lemma FinishDecides(p: Policy, job: JobState, succeeded: bool, now: int)
    requires Constructed(p) && FinishJob(p, job, succeeded, now).Some?
    ensures var final := FinishJob(p, job, succeeded, now).value;
            && final.id == job.id && final.attempts == job.attempts
            && (final.status == Completed <==> succeeded)
  {
  }

  /** The only outcomes that a step writes are those that a worker ends with. */
  lemma WrittenOutcome(p: Policy, s: Sys, step: Step, id: string)
    requires Constructed(p) && id in Next(p, s, step).store.rows
    requires forall h :: InPhase(s, h, Starting) ==> s.handles[h].job.status == Running
    requires forall k :: k in s.store.rows ==> s.store.rows[k].id == k
    ensures var after := Next(p, s, step).store.rows[id];
            || (id in s.store.rows && after == s.store.rows[id])
            || (after.id == id && after.status != Completed && (after.status == Pending ==> after.attempts == 0))
            || (step.SaveFinal? && InPhase(s, step.h, Ending) && after == s.handles[step.h].job && after.id == id)
  {
  }

  lemma StepRows(p: Policy, steps: seq<Step>, step: Step)
    requires Constructed(p)
    requires var s := Exec(p, INIT, steps); RowsAnswered(p, steps, s.store.rows) && HandlesAnswered(p, steps, s)
    ensures RowsAnswered(p, steps + [step], Next(p, Exec(p, INIT, steps), step).store.rows)
  {
    var s := Exec(p, INIT, steps);
    var t := Next(p, s, step);
    forall id | id in t.store.rows
      ensures t.store.rows[id].id == id && OutcomeAnswered(p, steps + [step], t.store.rows[id])
    {
      WrittenOutcome(p, s, step, id);
      if id in s.store.rows && t.store.rows[id] == s.store.rows[id] {
        AnswerLasts(p, steps, step, s.store.rows[id]);
      } else if step.SaveFinal? && InPhase(s, step.h, Ending) && t.store.rows[id] == s.handles[step.h].job {
        AnswerLasts(p, steps, step, s.handles[step.h].job);
      }
    }
  }

  /** A handle that a step changes, or leaves. */
  lemma StepHandle(p: Policy, s: Sys, step: Step, h: nat)
    requires Constructed(p) && h in Next(p, s, step).handles
    requires forall k :: InPhase(s, k, Acquired) ==> s.handles[k].job.status == Leased
    requires forall k :: InPhase(s, k, Starting) || InPhase(s, k, Saved) || InPhase(s, k, Ran) ==>
               s.handles[k].job.status == Running
    ensures var after := Next(p, s, step).handles[h];
            || (h in s.handles && after == s.handles[h] && !(step == RunHandler(h) && s.handles[h].phase == Saved))
            || (step == RunHandler(h) && InPhase(s, h, Saved) && after == Handle(s.handles[h].job, Ran))
            || (step.Finish? && step.h == h && InPhase(s, h, Ran)
                && FinishJob(p, s.handles[h].job, step.succeeded, step.now) == Some(after.job) && after.phase == Ending)
            || (after.phase == Acquired && after.job.status == Leased)
            || ((after.phase == Starting || after.phase == Saved) && after.job.status == Running)
            || (after.phase == Ending && after.job.status == Exhausted)
  {
  }

  lemma StepHandles(p: Policy, steps: seq<Step>, step: Step)
    requires Constructed(p) && HandlesAnswered(p, steps, Exec(p, INIT, steps))
    ensures HandlesAnswered(p, steps + [step], Next(p, Exec(p, INIT, steps), step))
  {
    var s := Exec(p, INIT, steps);
    var t := Next(p, s, step);
    RunsOnlyGrow(p, s, step);
    forall h | h in t.handles
      ensures HandleAnswered(p, steps + [step], t, h)
    {
      StepHandle(p, s, step, h);
      OneHandle(p, steps, step, h);
    }
    assert forall h, phase :: InPhase(t, h, phase) ==> HandleAnswered(p, steps + [step], t, h);
  }

  ghost predicate HandleAnswered(p: Policy, steps: seq<Step>, s: Sys, h: nat)
    requires Constructed(p) && h in s.handles
  {
    match s.handles[h].phase
    case Ending => OutcomeAnswered(p, steps, s.handles[h].job)
    case Ran => Started(s, h) in s.runs && s.handles[h].job.status == Running
    case Starting => s.handles[h].job.status == Running
    case Saved => s.handles[h].job.status == Running
    case Acquired => s.handles[h].job.status == Leased
  }

  lemma RunsOnlyGrow(p: Policy, s: Sys, step: Step)
    requires Constructed(p)
    ensures forall e :: e in s.runs ==> e in Next(p, s, step).runs
    ensures step.RunHandler? && InPhase(s, step.h, Saved) ==> Started(s, step.h) in Next(p, s, step).runs
  {
  }

  lemma OneHandle(p: Policy, steps: seq<Step>, step: Step, h: nat)
    requires Constructed(p) && HandlesAnswered(p, steps, Exec(p, INIT, steps))
    requires h in Next(p, Exec(p, INIT, steps), step).handles
    ensures HandleAnswered(p, steps + [step], Next(p, Exec(p, INIT, steps), step), h)
  {
    var s := Exec(p, INIT, steps);
    var t := Next(p, s, step);
    StepHandle(p, s, step, h);
    RunsOnlyGrow(p, s, step);
    if h in s.handles && t.handles[h] == s.handles[h] {
      assert InPhase(s, h, s.handles[h].phase);
      if s.handles[h].phase == Ending {
        AnswerLasts(p, steps, step, s.handles[h].job);
      }
    } else if step.Finish? && step.h == h && InPhase(s, h, Ran) {
      FinishAnswers(p, steps, h, step.succeeded, step.now);
    }
  }

  ghost predicate AllAnswered(p: Policy, steps: seq<Step>)
    requires Constructed(p)
  {
    var s := Exec(p, INIT, steps);
    RowsAnswered(p, steps, s.store.rows) && HandlesAnswered(p, steps, s)
  }

  /**
   In every run a completed job had a handler call, with its last attempt number, that was
   answered with success; a job that waits for a retry had one that was answered with
   failure.
   */
  lemma {:induction false} OutcomesWereAnswered(p: Policy, steps: seq<Step>)
    requires Constructed(p)
    ensures AllAnswered(p, steps)
  {
    if steps != [] {
      var init, last := steps[..|steps| - 1], steps[|steps| - 1];
      OutcomesWereAnswered(p, init);
      StepRows(p, init, last);
      StepHandles(p, init, last);
      assert init + [last] == steps;
    }
  }

  // ----- A handler that always fails -----

  /** One round of a worker: it acquires the job and calls the handler, at a time. */
  datatype Round = Round(owner: string, expiresAt: int, leaseCheckAt: int, now: int)

  function AfterRound(p: Policy, s: Sys, id: string, r: Round, succeeded: bool): Sys
    requires Constructed(p)
  {
    ExecuteSteps(p, Next(p, s, Acquire(id, r.owner, r.expiresAt, r.leaseCheckAt)), |s.leases|, succeeded, r.now)
  }

  function AfterRounds(p: Policy, s: Sys, id: string, rounds: seq<Round>): Sys
    requires Constructed(p)
    decreases |rounds|
  {
    if rounds == [] then s else AfterRounds(p, AfterRound(p, s, id, rounds[0], false), id, rounds[1..])
  }

  lemma CallKeepsInv(p: Policy, s: Sys, h: nat, succeeded: bool, now: int)
    requires Constructed(p) && Inv(Budget(p), s)
    ensures Inv(Budget(p), ExecuteSteps(p, s, h, succeeded, now))
  {
    StepKeepsInv(p, s, Begin(h));
    var s1 := Next(p, s, Begin(h));
    StepKeepsInv(p, s1, SaveRunning(h));
    var s2 := Next(p, s1, SaveRunning(h));
    StepKeepsInv(p, s2, RunHandler(h));
    var s3 := Next(p, s2, RunHandler(h));
    StepKeepsInv(p, s3, Finish(h, succeeded, now));
    StepKeepsInv(p, Next(p, s3, Finish(h, succeeded, now)), SaveFinal(h));
  }

  /** Acquiring a waiting job. */
  lemma WaitingIsAcquired(p: Policy, s: Sys, id: string, r: Round)
    requires Constructed(p) && Inv(Budget(p), s) && id in s.store.rows && s.store.rows[id].status == Pending
    ensures var (t, row) := (Next(p, s, Acquire(id, r.owner, r.expiresAt, r.leaseCheckAt)), s.store.rows[id]);
            && Inv(Budget(p), t) && t.runs == s.runs && InPhase(t, |s.leases|, Acquired)
            && t.handles[|s.leases|].job.id == id && id in t.store.rows
            && t.store.rows[id] == t.handles[|s.leases|].job
            && t.store.rows[id].attempts == row.attempts < Budget(p)
  {
    assert RowOk(Budget(p), s.store.rows[id]);
    AcquireIff(s.store, id, r.owner, r.expiresAt, r.leaseCheckAt);
    StepKeepsInv(p, s, Acquire(id, r.owner, r.expiresAt, r.leaseCheckAt));
  }

  /** One attempt is used up by one call of the handler. */
  ghost predicate Failed(p: Policy, s: Sys, t: Sys, id: string)
    requires Constructed(p)
  {
    && id in s.store.rows && id in t.store.rows && s.store.rows[id].attempts < Budget(p)
    && t.store.rows[id].attempts == s.store.rows[id].attempts + 1
    && t.store.rows[id].status == (if s.store.rows[id].attempts + 1 == Budget(p) then Exhausted else Pending)
    && t.runs == s.runs + [Execution(id, s.store.rows[id].attempts + 1)]
  }

  /** A round that fails uses up one attempt and calls the handler once. */
  lemma FailingRound(p: Policy, s: Sys, id: string, r: Round)
    requires Constructed(p) && Inv(Budget(p), s) && id in s.store.rows && s.store.rows[id].status == Pending &&
             r.now >= 0
    ensures Failed(p, s, AfterRound(p, s, id, r, false), id)
  {
    WaitingIsAcquired(p, s, id, r);
    FailingCall(p, s, Next(p, s, Acquire(id, r.owner, r.expiresAt, r.leaseCheckAt)), id, r.now);
  }

  lemma FailingCall(p: Policy, s: Sys, acquired: Sys, id: string, now: int)
    requires Constructed(p) && Inv(Budget(p), acquired) && acquired.runs == s.runs &&
             InPhase(acquired, |s.leases|, Acquired)
    requires acquired.handles[|s.leases|].job.id == id && id in acquired.store.rows && id in s.store.rows && now >= 0
    requires acquired.store.rows[id] == acquired.handles[|s.leases|].job
    requires acquired.store.rows[id].attempts == s.store.rows[id].attempts < Budget(p)
    ensures Failed(p, s, ExecuteSteps(p, acquired, |s.leases|, false, now), id)
  {
    CallOutcome(p, acquired, |s.leases|, false, now);
    FailedCall(p, s, acquired, ExecuteSteps(p, acquired, |s.leases|, false, now), id, now);
  }

  lemma RoundKeepsInv(p: Policy, s: Sys, id: string, r: Round)
    requires Constructed(p) && Inv(Budget(p), s)
    ensures Inv(Budget(p), AfterRound(p, s, id, r, false))
  {
    var acquired := Next(p, s, Acquire(id, r.owner, r.expiresAt, r.leaseCheckAt));
    StepKeepsInv(p, s, Acquire(id, r.owner, r.expiresAt, r.leaseCheckAt));
    CallKeepsInv(p, acquired, |s.leases|, false, r.now);
  }

  lemma FailedCall(p: Policy, s: Sys, acquired: Sys, t: Sys, id: string, now: int)
    requires Constructed(p) && id in s.store.rows && id in acquired.store.rows && now >= 0 && acquired.runs == s.runs
    requires acquired.store.rows[id].attempts == s.store.rows[id].attempts < Budget(p)
    requires CallEnds(p, acquired, t, id, false, now)
    ensures Failed(p, s, t, id)
  {
    FailureWaits(p, acquired.store.rows[id], t.store.rows[id], now);
  }

  lemma FailureWaits(p: Policy, row: JobState, after: JobState, now: int)
    requires Constructed(p) && row.attempts < Budget(p) && now >= 0 && Worked(p, row, after, true, false, now)
    ensures after.attempts == row.attempts + 1
    ensures after.status == if row.attempts + 1 == Budget(p) then Exhausted else Pending
  {
    RetryIffBudgetLeft(p, row.attempts + 1);
  }

  /** The calls for the attempts after `from`. */
  function Calls(id: string, from: nat, n: nat): seq<Execution>
    requires from + n <= MAX_ATTEMPTS as nat
    decreases n
  {
    if n == 0 then [] else [Execution(id, (from + 1) as uint64)] + Calls(id, from + 1, n - 1)
  }

  /** The budget that a job had left is used up by as many calls. */
  ghost predicate UsedUp(p: Policy, s: Sys, t: Sys, id: string, n: nat)
    requires Constructed(p)
  {
    && id in s.store.rows && id in t.store.rows
    && s.store.rows[id].attempts as nat + n == Budget(p) as nat
    && t.store.rows[id].status == Exhausted && t.store.rows[id].attempts == Budget(p)
    && t.runs == s.runs + Calls(id, s.store.rows[id].attempts as nat, n)
  }

  lemma OneMoreFailure(p: Policy, s: Sys, t: Sys, last: Sys, id: string, n: nat)
    requires Constructed(p) && Failed(p, s, t, id) && UsedUp(p, t, last, id, n)
    ensures UsedUp(p, s, last, id, n + 1)
  {
    CallsAppend(s.runs, id, s.store.rows[id].attempts as nat, n + 1);
  }

  lemma LastFailure(p: Policy, s: Sys, t: Sys, id: string)
    requires Constructed(p) && Failed(p, s, t, id) && s.store.rows[id].attempts + 1 == Budget(p)
    ensures UsedUp(p, s, t, id, 1)
  {
    CallsAppend(s.runs, id, s.store.rows[id].attempts as nat, 1);
  }

  /**
   A job whose handler always fails ends exhausted after exactly as many rounds, and calls,
   as its budget has left: a new job after exactly the budget.
   */
  lemma {:induction false} AlwaysFailingExhausts(p: Policy, s: Sys, id: string, rounds: seq<Round>)
    requires Constructed(p) && Inv(Budget(p), s) && id in s.store.rows && s.store.rows[id].status == Pending
    requires |rounds| == Budget(p) as nat - s.store.rows[id].attempts as nat
    requires forall i :: 0 <= i < |rounds| ==> rounds[i].now >= 0
    ensures UsedUp(p, s, AfterRounds(p, s, id, rounds), id, |rounds|)
    decreases |rounds|, 1
  {
    assert RowOk(Budget(p), s.store.rows[id]);
    FailingRound(p, s, id, rounds[0]);
    RoundKeepsInv(p, s, id, rounds[0]);
    NextRounds(p, s, AfterRound(p, s, id, rounds[0], false), id, rounds);
  }

  lemma {:induction false} NextRounds(p: Policy, s: Sys, t: Sys, id: string, rounds: seq<Round>)
    requires Constructed(p) && Inv(Budget(p), t) && Failed(p, s, t, id) && rounds != []
    requires |rounds| == Budget(p) as nat - s.store.rows[id].attempts as nat
    requires forall i :: 0 <= i < |rounds| ==> rounds[i].now >= 0
    ensures UsedUp(p, s, AfterRounds(p, t, id, rounds[1..]), id, |rounds|)
    decreases |rounds|, 0
  {
    if |rounds| > 1 {
      AlwaysFailingExhausts(p, t, id, rounds[1..]);
      OneMoreFailure(p, s, t, AfterRounds(p, t, id, rounds[1..]), id, |rounds| - 1);
    } else {
      assert rounds[1..] == [];
      LastFailure(p, s, t, id);
    }
  }

  lemma CallsAppend(runs: seq<Execution>, id: string, from: nat, n: nat)
    requires from + n <= MAX_ATTEMPTS as nat && n > 0
    ensures runs + Calls(id, from, n) == runs + [Execution(id, (from + 1) as uint64)] + Calls(id, from + 1, n - 1)
  {
  }
}
