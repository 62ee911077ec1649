/**
 What the scheduler's operations do to a job, field by field: who may take a job over, what
 a worker's call leaves of it, and what completed and exhausted jobs went through.
 */
module SchedulerOutcomes {
  import opened Outcomes
  import opened RetryPolicy
  import opened Jobs
  import opened JobStore
  import opened SchedulerRuns
  import opened SchedulerTheorems
  import opened Worker

  // ----- Saving and acquiring, on the fields of the row -----

  /**
   A save inserts a new job, or replaces the row of an open job of its lease generation.
   Any other leaves the rows alone: it reports a stale lease when the generations differ,
   except for a pending snapshot of a completed job, and is silent otherwise.
   */
  lemma SaveMeans(st: Store, job: JobState)
    ensures var (after, err) := Save(st, job);
            if job.id !in st.rows then after.rows == st.rows[job.id := job] && err == None
            else
              var row := st.rows[job.id];
              if row.status == Completed && (job.status == Pending || row.generation == job.generation) then
                after == st && err == None
              else if row.generation != job.generation then after == st && err == Some(StaleLease)
              else after.rows == st.rows[job.id := job] && err == None
  {
  }

  /** The lease of a row has run out at a time; a lease without an expiry never does. */
  predicate Expired(row: JobState, at: int) {
    row.leaseExpiresAt != NO_TIME && row.leaseExpiresAt <= at
  }

  predicate Held(row: JobState) {
    row.status == Leased || row.status == Running
  }

  /**
   A job can be acquired exactly when it is pending or failed, or leased or running under a
   lease that has run out by the time of the check. It then has the given owner and expiry
   and the next generation, and is otherwise as it was, like all other jobs.
   */
  lemma AcquireIff(st: Store, id: string, owner: string, expiresAt: int, leaseCheckAt: int)
    ensures var acquired := JobStore.Acquire(st, id, owner, expiresAt, leaseCheckAt);
            && (acquired.Ok? <==>
                  id in st.rows && Restorable(st.rows[id])
                  && var status := st.rows[id].status;
                     status == Pending || status == Failed ||
                     ((status == Leased || status == Running) && st.rows[id].leaseExpiresAt != NO_TIME &&
                      st.rows[id].leaseExpiresAt <= leaseCheckAt))
            && (acquired.Ok? ==>
                  var (after, job, row) := (acquired.value.0, acquired.value.1, st.rows[id]);
                  && after.rows == st.rows[id := job] && job.status == Leased
                  && job.leaseOwner == owner && job.leaseExpiresAt == expiresAt && job.generation == row.generation + 1
                  && job.id == row.id && job.jobType == row.jobType && job.payload == row.payload
                  && job.scheduledAt == row.scheduledAt && job.nextAttemptAt == row.nextAttemptAt
                  && job.attempts == row.attempts && job.aggregateId == row.aggregateId &&
                     job.causationId == row.causationId)
  {
  }

  // ----- Leases are exclusive until they run out -----

  lemma GenerationMoves(p: Policy, s: Sys, step: Step, id: string)
    requires Constructed(p) && Inv(Budget(p), s) && id in s.store.rows
    ensures id in Next(p, s, step).store.rows
    ensures Next(p, s, step).store.rows[id].generation != s.store.rows[id].generation ==>
              step.Acquire? && step.id == id &&
                (Held(s.store.rows[id]) ==> Expired(s.store.rows[id], step.leaseCheckAt))
  {
    var job := StepWrites(p, s, step);
    assert RowOk(Budget(p), s.store.rows[id]);
    if job.Some? && job.value.id == id && job.value.generation != s.store.rows[id].generation {
      OnlyLeasesMoveGeneration(s.store, step, job.value);
      AcquiredWasFree(p, s, step, id);
    }
  }

  lemma OnlyLeasesMoveGeneration(st: Store, step: Step, job: JobState)
    requires WriteFits(st, step, job) && job.id in st.rows && job.generation != st.rows[job.id].generation
    requires st.rows[job.id].generation == 0 ==> st.rows[job.id].status == Pending
    ensures step.Acquire?
  {
  }

  lemma AcquiredWasFree(p: Policy, s: Sys, step: Step, id: string)
    requires Constructed(p) && step.Acquire? && id in s.store.rows && id in Next(p, s, step).store.rows
    requires Next(p, s, step).store.rows[id] != s.store.rows[id]
    ensures step.id == id && (Held(s.store.rows[id]) ==> Expired(s.store.rows[id], step.leaseCheckAt))
  {
    AcquireIff(s.store, step.id, step.owner, step.expiresAt, step.leaseCheckAt);
  }

  /** The lease is the same one, and still held. */
  predicate SameLease(before: JobState, after: JobState) {
    && after.generation == before.generation && Held(after)
    && after.leaseOwner == before.leaseOwner && after.leaseExpiresAt == before.leaseExpiresAt
  }

  /** The holder of the lease has given it back. */
  predicate GivenBack(before: JobState, after: JobState) {
    after.generation == before.generation && !Held(after)
  }

  lemma LeaseStep(p: Policy, s: Sys, step: Step, id: string)
    requires Constructed(p) && Inv(Budget(p), s) && id in s.store.rows && Held(s.store.rows[id])
    requires step.Acquire? && step.id == id ==> !Expired(s.store.rows[id], step.leaseCheckAt)
    ensures id in Next(p, s, step).store.rows
    ensures var (before, after) := (s.store.rows[id], Next(p, s, step).store.rows[id]);
            SameLease(before, after) || GivenBack(before, after)
  {
    var job := StepWrites(p, s, step);
    GenerationMoves(p, s, step, id);
    assert RowOk(Budget(p), s.store.rows[id]);
    if job.Some? && job.value.id == id {
      WriteKeepsLease(s.store, step, job.value);
    }
  }

  lemma WriteKeepsLease(st: Store, step: Step, job: JobState)
    requires WriteFits(st, step, job) && job.id in st.rows && Held(st.rows[job.id]) && st.rows[job.id].generation > 0
    requires job.generation == st.rows[job.id].generation
    ensures SameLease(st.rows[job.id], job) || GivenBack(st.rows[job.id], job)
  {
  }

  ghost predicate GivenBackWithin(p: Policy, s: Sys, steps: seq<Step>, id: string, before: JobState)
    requires Constructed(p)
  {
    exists k: nat :: k <= |steps| && id in Exec(p, s, steps[..k]).store.rows &&
                     GivenBack(before, Exec(p, s, steps[..k]).store.rows[id])
  }

  lemma LeaseReaches(p: Policy, s: Sys, steps: seq<Step>, id: string, before: JobState, k: nat)
    requires Constructed(p) && k <= |steps| && id in Exec(p, s, steps[..k]).store.rows
    requires GivenBack(before, Exec(p, s, steps[..k]).store.rows[id])
    ensures GivenBackWithin(p, s, steps, id, before)
  {
  }

  /** The lease is still the one that it was, or was given back on the way. */
  ghost predicate LeaseKept(p: Policy, s: Sys, steps: seq<Step>, id: string, before: JobState)
    requires Constructed(p)
  {
    id in Exec(p, s, steps).store.rows &&
      (SameLease(before, Exec(p, s, steps).store.rows[id]) || GivenBackWithin(p, s, steps, id, before))
  }

  lemma LeaseContinues(p: Policy, s: Sys, steps: seq<Step>, id: string, before: JobState)
    requires Constructed(p) && steps != [] && LeaseKept(p, s, steps[..|steps| - 1], id, before)
    requires Inv(Budget(p), Exec(p, s, steps[..|steps| - 1]))
    requires var last := steps[|steps| - 1];
             last.Acquire? && last.id == id ==> !Expired(before, last.leaseCheckAt)
    ensures LeaseKept(p, s, steps, id, before)
  {
    var init, last := steps[..|steps| - 1], steps[|steps| - 1];
    var t := Exec(p, s, init);
    GenerationMoves(p, t, last, id);
    if SameLease(before, t.store.rows[id]) {
      LeaseStep(p, t, last, id);
      EndsSomewhere(p, s, steps, id, before);
    } else {
      StaysGivenBack(p, s, steps, id, before);
    }
  }

  lemma EndsSomewhere(p: Policy, s: Sys, steps: seq<Step>, id: string, before: JobState)
    requires Constructed(p) && id in Exec(p, s, steps).store.rows
    requires var after := Exec(p, s, steps).store.rows[id]; SameLease(before, after) || GivenBack(before, after)
    ensures LeaseKept(p, s, steps, id, before)
  {
    assert steps[..|steps|] == steps;
    if GivenBack(before, Exec(p, s, steps).store.rows[id]) {
      LeaseReaches(p, s, steps, id, before, |steps|);
    }
  }

  /**
   Until a lease has run out by the clock of those who ask for the job, nobody takes it
   away: it stays with its owner and expiry, unless its holder has ended it by then.
   */
  lemma {:induction false} LiveLeaseIsKept(p: Policy, s: Sys, steps: seq<Step>, id: string)
    requires Constructed(p) && Inv(Budget(p), s) && id in s.store.rows && Held(s.store.rows[id])
    requires forall i :: 0 <= i < |steps| && steps[i].Acquire? && steps[i].id == id ==>
               !Expired(s.store.rows[id], steps[i].leaseCheckAt)
    ensures LeaseKept(p, s, steps, id, s.store.rows[id])
  {
    if steps != [] {
      LiveLeaseIsKept(p, s, steps[..|steps| - 1], id);
      ExecKeepsInv(p, s, steps[..|steps| - 1]);
      LeaseContinues(p, s, steps, id, s.store.rows[id]);
    }
  }

  lemma StaysGivenBack(p: Policy, s: Sys, steps: seq<Step>, id: string, before: JobState)
    requires Constructed(p) && steps != [] && GivenBackWithin(p, s, steps[..|steps| - 1], id, before)
    ensures GivenBackWithin(p, s, steps, id, before)
  {
    var init := steps[..|steps| - 1];
    var k: nat :| k <= |init| && id in Exec(p, s, init[..k]).store.rows &&
                  GivenBack(before, Exec(p, s, init[..k]).store.rows[id]);
    assert init[..k] == steps[..k];
    LeaseReaches(p, s, steps, id, before, k);
  }

  // ----- What a worker's call leaves of its job -----

  /** Only one row differs. */
  ghost predicate OnlyRow(before: map<string, JobState>, after: map<string, JobState>, id: string) {
    before.Keys == after.Keys && forall k :: k in before && k != id ==> after[k] == before[k]
  }

  /**
   After its handler returned, the worker that still holds the lease completes the job
   exactly when the handler succeeded. A failed job waits for its next attempt for the
   policy's delay while attempts are left, and is exhausted otherwise. Only when the
   retry time is the unset time is nothing saved.
   */
  predicate Concluded(p: Policy, row: JobState, after: JobState, succeeded: bool, now: int)
    requires Constructed(p) && 0 < row.attempts <= Budget(p)
  {
    if succeeded then after == row.(status := Completed, leaseOwner := "", leaseExpiresAt := NO_TIME)
    else if row.attempts == Budget(p) then
      after == row.(status := Exhausted, leaseOwner := "", leaseExpiresAt := NO_TIME)
    else
      var at := now + Delay(p, row.attempts) as int;
      after == if at == NO_TIME then row
               else row.(status := Pending, nextAttemptAt := at, leaseOwner := "", leaseExpiresAt := NO_TIME)
  }

  lemma HandlerOutcome(p: Policy, s: Sys, h: nat, succeeded: bool, now: int)
    requires Constructed(p) && Inv(Budget(p), s) && InPhase(s, h, Ran)
    requires s.handles[h].job.id in s.store.rows
    requires s.store.rows[s.handles[h].job.id].generation == s.handles[h].job.generation
    ensures var (id, t) := (s.handles[h].job.id, Next(p, Next(p, s, Finish(h, succeeded, now)), SaveFinal(h)));
            && 0 < s.store.rows[id].attempts <= Budget(p) && h !in t.handles
            && OnlyRow(s.store.rows, t.store.rows, id)
            && Concluded(p, s.store.rows[id], t.store.rows[id], succeeded, now)
  {
    HolderOwns(p, s, h, Ran);
    FinalSnapshot(p, s.handles[h].job, succeeded, now);
    FinalSave(p, s, h, succeeded, now);
  }

  lemma FinalSnapshot(p: Policy, job: JobState, succeeded: bool, now: int)
    requires Constructed(p) && job.status == Running && 0 < job.attempts <= Budget(p)
    ensures var final := FinishJob(p, job, succeeded, now);
            if final.Some? then
              Concluded(p, job, final.value, succeeded, now)
            else Concluded(p, job, job, succeeded, now)
  {
    RetryIffBudgetLeft(p, job.attempts);
  }

  /** The row of the holder is what it concludes with, if that can be concluded. */
  lemma FinalSave(p: Policy, s: Sys, h: nat, succeeded: bool, now: int)
    requires Constructed(p) && InPhase(s, h, Ran)
    requires var job := s.handles[h].job;
             job.id in s.store.rows && s.store.rows[job.id] == job && job.status == Running
    ensures var job := s.handles[h].job;
            var (final, t) :=
                (FinishJob(p, job, succeeded, now), Next(p, Next(p, s, Finish(h, succeeded, now)), SaveFinal(h)));
            && h !in t.handles
            && t.store.rows == if final.Some? then s.store.rows[job.id := final.value] else s.store.rows
  {
    var final := FinishJob(p, s.handles[h].job, succeeded, now);
    if final.Some? {
      assert final.value.id == s.handles[h].job.id && final.value.generation == s.handles[h].job.generation;
    }
  }

  /** The row of the worker's job is the worker's own copy. */
  predicate Owns(s: Sys, h: nat, phase: Phase) {
    InPhase(s, h, phase) && s.handles[h].job.id in s.store.rows && s.store.rows[s.handles[h].job.id] == s.handles[h].job
  }

  lemma HolderOwns(p: Policy, s: Sys, h: nat, phase: Phase)
    requires Constructed(p) && Inv(Budget(p), s) && InPhase(s, h, phase) && (phase == Acquired || phase == Ran)
    requires s.handles[h].job.id in s.store.rows
    requires s.store.rows[s.handles[h].job.id].generation == s.handles[h].job.generation
    ensures Owns(s, h, phase) && RowOk(Budget(p), s.handles[h].job) && StatusFits(s.handles[h])
  {
    assert HandleOk(Budget(p), s, h) && RowOk(Budget(p), s.store.rows[s.handles[h].job.id]);
  }

  lemma BeginSnapshot(p: Policy, job: JobState)
    requires Constructed(p) && job.status == Leased && job.attempts <= Budget(p)
    ensures BeginJob(p, job) ==
            if job.attempts < Budget(p) then
              Some(Handle(job.(status := Running, attempts := job.attempts + 1), Starting))
            else Some(Handle(job.(status := Exhausted, leaseOwner := "", leaseExpiresAt := NO_TIME), Ending))
  {
    if job.attempts > 0 {
      RetryIffBudgetLeft(p, job.attempts);
    }
  }

  /** A worker that owns its job starts the next attempt while some are left. */
  lemma AttemptStarts(p: Policy, s: Sys, h: nat)
    requires Constructed(p) && Owns(s, h, Acquired) && s.handles[h].job.status == Leased
    requires s.handles[h].job.attempts < Budget(p)
    ensures var job := s.handles[h].job;
            var (t, started) :=
                (Next(p, Next(p, s, Begin(h)), SaveRunning(h)), job.(status := Running, attempts := job.attempts + 1));
            t.store.rows == s.store.rows[job.id := started] && t.runs == s.runs && Owns(t, h, Saved) &&
              t.handles[h].job == started
  {
    BeginSnapshot(p, s.handles[h].job);
  }

  /** Without attempts left it exhausts the job. */
  lemma BudgetEnds(p: Policy, s: Sys, h: nat)
    requires Constructed(p) && Owns(s, h, Acquired) && s.handles[h].job.status == Leased
    requires s.handles[h].job.attempts == Budget(p)
    ensures var (job, begun) := (s.handles[h].job, Next(p, s, Begin(h)));
            var t := Next(p, begun, SaveFinal(h));
            && InPhase(begun, h, Ending) && h !in t.handles && t.runs == s.runs
            && t.store.rows ==
               s.store.rows[job.id := job.(status := Exhausted, leaseOwner := "", leaseExpiresAt := NO_TIME)]
  {
    BeginSnapshot(p, s.handles[h].job);
  }

  lemma CalledOnce(p: Policy, s: Sys, h: nat)
    requires Constructed(p) && InPhase(s, h, Saved)
    ensures var t := Next(p, s, RunHandler(h));
            && t.store == s.store && t.leases == s.leases && t.handles == s.handles[h := Handle(s.handles[h].job, Ran)]
            && t.runs == s.runs + [Execution(s.handles[h].job.id, s.handles[h].job.attempts)]
  {
  }

  lemma IdleSteps(p: Policy, s: Sys, h: nat, succeeded: bool, now: int)
    requires Constructed(p) && InPhase(s, h, Ending)
    ensures Next(p, Next(p, Next(p, s, SaveRunning(h)), RunHandler(h)), Finish(h, succeeded, now)) == s
  {
  }

  lemma FinishKeepsRuns(p: Policy, s: Sys, h: nat, succeeded: bool, now: int)
    requires Constructed(p)
    ensures var t := Next(p, Next(p, s, Finish(h, succeeded, now)), SaveFinal(h));
            t.runs == s.runs && t.leases == s.leases
  {
  }

  /** What one uninterrupted call of a worker leaves of its job. */
  predicate Worked(p: Policy, row: JobState, after: JobState, called: bool, succeeded: bool, now: int)
    requires Constructed(p) && row.attempts <= Budget(p)
  {
    if row.attempts == Budget(p) then
      !called && after == row.(status := Exhausted, leaseOwner := "", leaseExpiresAt := NO_TIME)
    else called && Concluded(p, row.(status := Running, attempts := row.attempts + 1), after, succeeded, now)
  }

  /** The store and the handler calls after such a call. */
  ghost predicate CallEnds(p: Policy, s: Sys, t: Sys, id: string, succeeded: bool, now: int)
    requires Constructed(p) && id in s.store.rows && s.store.rows[id].attempts <= Budget(p)
  {
    && OnlyRow(s.store.rows, t.store.rows, id)
    && Worked(p, s.store.rows[id], t.store.rows[id], t.runs != s.runs, succeeded, now)
    && (t.runs != s.runs ==> t.runs == s.runs + [Execution(id, s.store.rows[id].attempts + 1)])
  }

  lemma StartedCall(p: Policy, s: Sys, h: nat, succeeded: bool, now: int)
    requires Constructed(p) && Owns(s, h, Acquired) && s.handles[h].job.status == Leased
    requires s.handles[h].job.attempts < Budget(p)
    ensures var t := ExecuteSteps(p, s, h, succeeded, now);
            CallEnds(p, s, t, s.handles[h].job.id, succeeded, now) && h !in t.handles
  {
    AttemptStarts(p, s, h);
    AttemptConcludes(p, Next(p, Next(p, s, Begin(h)), SaveRunning(h)), h, succeeded, now);
  }

  lemma EndedCall(p: Policy, s: Sys, h: nat, succeeded: bool, now: int)
    requires Constructed(p) && Owns(s, h, Acquired) && s.handles[h].job.status == Leased
    requires s.handles[h].job.attempts == Budget(p)
    ensures var t := ExecuteSteps(p, s, h, succeeded, now);
            CallEnds(p, s, t, s.handles[h].job.id, succeeded, now) && h !in t.handles
  {
    BudgetEnds(p, s, h);
    IdleSteps(p, Next(p, s, Begin(h)), h, succeeded, now);
  }

  /**
   One uninterrupted call for a job that the worker holds: without attempts left the job is
   exhausted; otherwise the handler is called once, as the next attempt, and its answer
   decides between completion, retry and exhaustion.
   */
  lemma CallOutcome(p: Policy, s: Sys, h: nat, succeeded: bool, now: int)
    requires Constructed(p) && Inv(Budget(p), s) && InPhase(s, h, Acquired)
    requires s.handles[h].job.id in s.store.rows
    requires s.store.rows[s.handles[h].job.id].generation == s.handles[h].job.generation
    ensures var (id, t) := (s.handles[h].job.id, ExecuteSteps(p, s, h, succeeded, now));
            s.store.rows[id].attempts <= Budget(p) && CallEnds(p, s, t, id, succeeded, now) && h !in t.handles
  {
    HolderOwns(p, s, h, Acquired);
    if s.handles[h].job.attempts < Budget(p) {
      StartedCall(p, s, h, succeeded, now);
    } else {
      EndedCall(p, s, h, succeeded, now);
    }
  }

  lemma AttemptConcludes(p: Policy, s: Sys, h: nat, succeeded: bool, now: int)
    requires Constructed(p) && Owns(s, h, Saved) && s.handles[h].job.status == Running
    requires 0 < s.handles[h].job.attempts <= Budget(p)
    ensures var (job, t) :=
            (s.handles[h].job, Next(p, Next(p, Next(p, s, RunHandler(h)), Finish(h, succeeded, now)), SaveFinal(h)));
            && t.runs == s.runs + [Execution(job.id, job.attempts)] && h !in t.handles
            && OnlyRow(s.store.rows, t.store.rows, job.id)
            && Concluded(p, job, t.store.rows[job.id], succeeded, now)
  {
    var ran := Next(p, s, RunHandler(h));
    CalledOnce(p, s, h);
    FinalSnapshot(p, s.handles[h].job, succeeded, now);
    FinalSave(p, ran, h, succeeded, now);
    FinishKeepsRuns(p, ran, h, succeeded, now);
  }
}
