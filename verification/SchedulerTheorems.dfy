/**
 What every run of the scheduler guarantees: the attempt budget, terminal states,
 fencing, and an audit log that is the job's lifecycle.
 */
module SchedulerTheorems {
  import opened Outcomes
  import opened RetryPolicy
  import opened Jobs
  import opened JobStore
  import opened SchedulerRuns

  // ----- The attempt budget -----

  /** The attempt numbers of one job's handler calls, oldest first. */
  function AttemptsOf(runs: seq<Execution>, id: string): seq<uint64> {
    if runs == [] then []
    else
      var rest := AttemptsOf(runs[..|runs| - 1], id);
      var last := runs[|runs| - 1];
      if last.id == id then rest + [last.attempt] else rest
  }

  ghost predicate Distinct<T(!new)>(s: seq<T>) {
    forall i, j :: 0 <= i < j < |s| ==> s[i] != s[j]
  }

  lemma {:induction false} AttemptsAreRuns(runs: seq<Execution>, id: string)
    requires Distinct(runs)
    ensures forall a :: a in AttemptsOf(runs, id) <==> Execution(id, a) in runs
    ensures Distinct(AttemptsOf(runs, id))
  {
    if runs != [] {
      var init, last := runs[..|runs| - 1], runs[|runs| - 1];
      AttemptsAreRuns(init, id);
      assert runs == init + [last];
      assert last !in init;
    }
  }

  lemma {:induction false} Pigeonhole(s: seq<uint64>, m: nat)
    requires Distinct(s) && forall i :: 0 <= i < |s| ==> 0 < s[i] as nat <= m
    ensures |s| <= m
  {
    if |s| > 0 {
      assert 0 < s[0] as nat <= m;
    }
    if m == 0 {
    } else if i :| 0 <= i < |s| && s[i] as nat == m {
      var rest := s[..i] + s[i + 1..];
      assert forall a :: a in rest ==> a in s && a != s[i];
      Pigeonhole(rest, m - 1);
    } else {
      Pigeonhole(s, m - 1);
    }
  }

  /**
   In every run the handler of a job is called at most as often as the policy's
   budget says, each time with a different attempt number within the budget.
   */
  lemma HandlerCallsWithinBudget(p: Policy, steps: seq<Step>, id: string)
    requires Constructed(p)
    ensures var attempts := AttemptsOf(Exec(p, INIT, steps).runs, id);
            && |attempts| <= Budget(p) as nat
            && Distinct(attempts)
            && forall a :: a in attempts ==> 1 <= a <= Budget(p)
  {
    var s := Exec(p, INIT, steps);
    RunKeepsInv(p, steps);
    AttemptsAreRuns(s.runs, id);
    forall a | a in AttemptsOf(s.runs, id)
      ensures 1 <= a <= Budget(p)
    {
      assert Execution(id, a) in s.runs;
      assert RowOk(Budget(p), s.store.rows[id]);
    }
    var attempts := AttemptsOf(s.runs, id);
    assert forall i :: 0 <= i < |attempts| ==> attempts[i] in attempts;
    Pigeonhole(attempts, Budget(p) as nat);
  }

  /** An exhausted job has used up its budget exactly; a job waiting for a retry has not. */
  lemma ExhaustedExactlyAtBudget(p: Policy, steps: seq<Step>, id: string)
    requires Constructed(p) && id in Exec(p, INIT, steps).store.rows
    ensures var row := Exec(p, INIT, steps).store.rows[id];
            && (row.status == Exhausted ==> row.attempts == Budget(p))
            && (row.status == Pending ==> row.attempts < Budget(p))
            && row.status != Failed
  {
    RunKeepsInv(p, steps);
    assert RowOk(Budget(p), Exec(p, INIT, steps).store.rows[id]);
  }

  // ----- Terminal states -----

  predicate Terminal(job: JobState) {
    job.status == Completed || job.status == Exhausted
  }

  lemma {:induction false} ExecAppend(p: Policy, s: Sys, first: seq<Step>, second: seq<Step>)
    requires Constructed(p)
    ensures Exec(p, s, first + second) == Exec(p, Exec(p, s, first), second)
  {
    if second == [] {
      assert first + second == first;
    } else {
      var all, init := first + second, second[..|second| - 1];
      ExecAppend(p, s, first, init);
      assert all[..|all| - 1] == first + init;
      assert all[|all| - 1] == second[|second| - 1];
    }
  }

  lemma {:induction false} ExecKeepsInv(p: Policy, s: Sys, steps: seq<Step>)
    requires Constructed(p) && Inv(Budget(p), s)
    ensures Inv(Budget(p), Exec(p, s, steps))
  {
    if steps != [] {
      ExecKeepsInv(p, s, steps[..|steps| - 1]);
      StepKeepsInv(p, Exec(p, s, steps[..|steps| - 1]), steps[|steps| - 1]);
    }
  }

  function Enqueued(step: Step): Result<JobState, JobError>
    requires step.Enqueue?
  {
    NewJob(step.id, step.jobType, step.payload, step.scheduledAt, step.aggregateId, step.causationId)
  }

  /** The only writes there are: an enqueue of a job that nobody has acquired, or a legal lifecycle step. */
  predicate WriteFits(st: Store, step: Step, job: JobState) {
    || (step.Enqueue? && Enqueued(step) == Ok(job) && (job.id in st.rows ==> st.rows[job.id].generation == 0))
    || (job.id in st.rows && LegalStep(st.rows[job.id], job) && job.generation > 0
        && (job.status == Leased ==> step.Acquire? && job.leaseOwner == step.owner))
  }

  /** Every step of every worker leaves the store alone or makes one such write. */
  lemma {:induction false} StepWrites(p: Policy, s: Sys, step: Step) returns (job: Option<JobState>)
    requires Constructed(p) && Inv(Budget(p), s)
    ensures job == None ==> Next(p, s, step).store == s.store
    ensures job.Some? ==> Next(p, s, step).store == Write(s.store, job.value) && WriteFits(s.store, step, job.value)
  {
    job := None;
    match step
    case Enqueue(_, _, _, _, _, _) => job := EnqueueWrites(p, s, step);
    case Acquire(_, _, _, _) => job := AcquireWrites(p, s, step);
    case SaveRunning(h) => job := SaveWrites(p, s, step);
    case SaveFinal(h) => job := SaveWrites(p, s, step);
    case _ => QuietStep(p, s, step);
  }

  lemma QuietStep(p: Policy, s: Sys, step: Step)
    requires Constructed(p) && !step.Enqueue? && !step.Acquire? && !step.SaveRunning? && !step.SaveFinal?
    ensures Next(p, s, step).store == s.store
  {
  }

  lemma EnqueueWrites(p: Policy, s: Sys, step: Step) returns (job: Option<JobState>)
    requires Constructed(p) && Inv(Budget(p), s) && step.Enqueue?
    ensures job == None ==> Next(p, s, step).store == s.store
    ensures job.Some? ==> Next(p, s, step).store == Write(s.store, job.value) && WriteFits(s.store, step, job.value)
  {
    job := None;
    if Enqueued(step).Ok? && Writable(s.store, Enqueued(step).value) {
      var first := Enqueued(step).value;
      assert Save(s.store, first).0 == Write(s.store, first);
      job := Some(first);
    } else {
      assert Next(p, s, step) == s;
    }
  }

  lemma AcquireWrites(p: Policy, s: Sys, step: Step) returns (job: Option<JobState>)
    requires Constructed(p) && Inv(Budget(p), s) && step.Acquire?
    ensures job == None ==> Next(p, s, step).store == s.store
    ensures job.Some? ==> Next(p, s, step).store == Write(s.store, job.value) && WriteFits(s.store, step, job.value)
  {
    job := None;
    var r := JobStore.Acquire(s.store, step.id, step.owner, step.expiresAt, step.leaseCheckAt);
    if r.Ok? {
      assert RowOk(Budget(p), s.store.rows[step.id]);
      job := Some(r.value.1);
    }
  }

  lemma SaveWrites(p: Policy, s: Sys, step: Step) returns (job: Option<JobState>)
    requires Constructed(p) && Inv(Budget(p), s) && (step.SaveRunning? || step.SaveFinal?)
    ensures job == None ==> Next(p, s, step).store == s.store
    ensures job.Some? ==> Next(p, s, step).store == Write(s.store, job.value) && WriteFits(s.store, step, job.value)
  {
    job := None;
    if InPhase(s, step.h, if step.SaveRunning? then Starting else Ending) && Writable(s.store, s.handles[step.h].job) {
      job := HolderWrites(Budget(p), s, step.h);
    }
  }

  lemma HolderWrites(m: uint64, s: Sys, h: nat) returns (job: Option<JobState>)
    requires Inv(m, s) && h in s.handles && (s.handles[h].phase == Starting || s.handles[h].phase == Ending)
    requires Writable(s.store, s.handles[h].job)
    ensures job == Some(s.handles[h].job)
    ensures var w := job.value;
            w.id in s.store.rows && LegalStep(s.store.rows[w.id], w) && w.generation > 0 && w.status != Leased
  {
    assert HandleOk(m, s, h);
    job := Some(s.handles[h].job);
  }

  /** No step writes over a terminal row, although the guard of the save names only completed ones. */
  lemma {:induction false} StepKeepsTerminal(p: Policy, s: Sys, step: Step, id: string)
    requires Constructed(p) && Inv(Budget(p), s) && id in s.store.rows && Terminal(s.store.rows[id])
    ensures SameRowAndHistory(s.store, Next(p, s, step).store, id)
  {
    var job := StepWrites(p, s, step);
    assert RowOk(Budget(p), s.store.rows[id]);
    if job.Some? {
      OtherWriteKeepsRow(s.store, job.value, id);
    }
  }

  lemma OtherWriteKeepsRow(st: Store, job: JobState, id: string)
    requires job.id != id && id in st.rows
    ensures Write(st, job).rows[id] == st.rows[id]
    ensures AuditOf(Write(st, job).audit, id) == AuditOf(st.audit, id)
  {
    AuditOfSnoc(st.audit, AuditRow(job, st.sequence + 1), id);
  }

  predicate SameRowAndHistory(s: Store, t: Store, id: string) {
    id in s.rows && id in t.rows && t.rows[id] == s.rows[id] && AuditOf(t.audit, id) == AuditOf(s.audit, id)
  }

  lemma {:induction false} TerminalStays(p: Policy, s: Sys, later: seq<Step>, id: string)
    requires Constructed(p) && Inv(Budget(p), s) && id in s.store.rows && Terminal(s.store.rows[id])
    ensures SameRowAndHistory(s.store, Exec(p, s, later).store, id)
  {
    if later != [] {
      var init := later[..|later| - 1];
      TerminalStays(p, s, init, id);
      ExecKeepsInv(p, s, init);
      StepKeepsTerminal(p, Exec(p, s, init), later[|later| - 1], id);
    }
  }

  /** Completed and exhausted are absorbing: whatever happens later, the row and its history stay as they are. */
  lemma TerminalIsAbsorbing(p: Policy, earlier: seq<Step>, later: seq<Step>, id: string)
    requires Constructed(p)
    requires id in Exec(p, INIT, earlier).store.rows && Terminal(Exec(p, INIT, earlier).store.rows[id])
    ensures SameRowAndHistory(Exec(p, INIT, earlier).store, Exec(p, INIT, earlier + later).store, id)
  {
    RunKeepsInv(p, earlier);
    ExecAppend(p, INIT, earlier, later);
    TerminalStays(p, Exec(p, INIT, earlier), later, id);
  }

  // ----- Fencing -----

  /** The generations 1..g of a job at generation g were handed out in this order, each to exactly one acquirer. */
  lemma GenerationsHaveOneHolder(p: Policy, steps: seq<Step>)
    requires Constructed(p)
    ensures var s := Exec(p, INIT, steps);
            && (forall id, g ::
                 id in s.store.rows && 1 <= g <= s.store.rows[id].generation ==> Lease(id, g) in s.leases)
            && (forall i, j :: 0 <= i < j < |s.leases| && s.leases[i].id == s.leases[j].id ==>
                  s.leases[i].generation < s.leases[j].generation)
            && (forall h ::
                 h in s.handles ==>
                   h < |s.leases| && s.leases[h] == Lease(s.handles[h].job.id, s.handles[h].job.generation))
  {
    RunKeepsInv(p, steps);
    var s := Exec(p, INIT, steps);
    forall h | h in s.handles
      ensures h < |s.leases| && s.leases[h] == Lease(s.handles[h].job.id, s.handles[h].job.generation)
    {
      assert HandleOk(Budget(p), s, h);
    }
  }

  /** The stored generation is no longer the one that acquirer `h` was given. */
  predicate TakenOver(s: Sys, h: nat) {
    h < |s.leases| && s.leases[h].id in s.store.rows &&
      s.store.rows[s.leases[h].id].generation != s.leases[h].generation
  }

  lemma WriteRaisesGeneration(st: Store, step: Step, job: JobState, id: string)
    requires WriteFits(st, step, job) && id in st.rows
    ensures id in Write(st, job).rows && st.rows[id].generation <= Write(st, job).rows[id].generation
  {
  }

  lemma GenerationsRise(p: Policy, s: Sys, step: Step, id: string)
    requires Constructed(p) && Inv(Budget(p), s) && id in s.store.rows
    ensures id in Next(p, s, step).store.rows &&
            s.store.rows[id].generation <= Next(p, s, step).store.rows[id].generation
  {
    var job := StepWrites(p, s, step);
    if job.Some? {
      WriteRaisesGeneration(s.store, step, job.value, id);
    }
  }

  lemma LeasesGrow(p: Policy, s: Sys, step: Step)
    requires Constructed(p)
    ensures |s.leases| <= |Next(p, s, step).leases| && Next(p, s, step).leases[..|s.leases|] == s.leases
  {
  }

  lemma TakenOverSaveIsRefused(p: Policy, s: Sys, h: nat)
    requires Constructed(p) && Inv(Budget(p), s) && TakenOver(s, h) && h in s.handles
    ensures var (store, err) := Save(s.store, s.handles[h].job);
            store == s.store && (s.handles[h].phase == Starting ==> err == Some(StaleLease))
  {
    assert HandleOk(Budget(p), s, h);
    StaleSaveIsRefused(s.store, s.handles[h].job);
  }

  lemma SaveRunningStep(p: Policy, s: Sys, h: nat)
    requires Constructed(p) && InPhase(s, h, Starting) && Save(s.store, s.handles[h].job) == (s.store, Some(StaleLease))
    ensures Next(p, s, SaveRunning(h)) == SetHandle(s, h, None)
  {
  }

  lemma SaveFinalStep(p: Policy, s: Sys, h: nat)
    requires Constructed(p) && InPhase(s, h, Ending) && Save(s.store, s.handles[h].job).0 == s.store
    ensures Next(p, s, SaveFinal(h)) == SetHandle(s, h, None)
  {
  }

  lemma NotInPhaseDoesNothing(p: Policy, s: Sys, h: nat)
    requires Constructed(p)
    ensures !InPhase(s, h, Starting) ==> Next(p, s, SaveRunning(h)) == s
    ensures !InPhase(s, h, Ending) ==> Next(p, s, SaveFinal(h)) == s
  {
  }

  /** The saves of a superseded worker write nothing, and the save of its start takes its job from it. */
  lemma TakenOverWritesNothing(p: Policy, s: Sys, h: nat)
    requires Constructed(p) && Inv(Budget(p), s) && TakenOver(s, h)
    ensures Next(p, s, SaveRunning(h)).store == s.store
    ensures Next(p, s, SaveFinal(h)).store == s.store
    ensures !InPhase(s, h, Saved) ==> !InPhase(Next(p, s, SaveRunning(h)), h, Saved)
  {
    NotInPhaseDoesNothing(p, s, h);
    if InPhase(s, h, Starting) {
      TakenOverSaveIsRefused(p, s, h);
      SaveRunningStep(p, s, h);
    } else if InPhase(s, h, Ending) {
      TakenOverSaveIsRefused(p, s, h);
      SaveFinalStep(p, s, h);
    }
  }

  lemma OnlySaveRunningReachesSaved(p: Policy, s: Sys, step: Step, h: nat)
    requires Constructed(p) && InPhase(Next(p, s, step), h, Saved)
    ensures step == SaveRunning(h) || InPhase(s, h, Saved)
  {
  }

  lemma StepKeepsTakenOver(p: Policy, s: Sys, step: Step, h: nat)
    requires Constructed(p) && Inv(Budget(p), s) && TakenOver(s, h)
    ensures TakenOver(Next(p, s, step), h)
    ensures InPhase(Next(p, s, step), h, Saved) ==> InPhase(s, h, Saved)
  {
    var t := Next(p, s, step);
    GenerationsRise(p, s, step, s.leases[h].id);
    LeasesGrow(p, s, step);
    assert t.leases[..|s.leases|][h] == t.leases[h];
    if InPhase(t, h, Saved) {
      OnlySaveRunningReachesSaved(p, s, step, h);
      TakenOverWritesNothing(p, s, h);
    }
  }

  lemma {:induction false} TakenOverStays(p: Policy, s: Sys, later: seq<Step>, h: nat)
    requires Constructed(p) && Inv(Budget(p), s) && TakenOver(s, h)
    ensures TakenOver(Exec(p, s, later), h)
    ensures InPhase(Exec(p, s, later), h, Saved) ==> InPhase(s, h, Saved)
  {
    if later != [] {
      var init := later[..|later| - 1];
      TakenOverStays(p, s, init, h);
      ExecKeepsInv(p, s, init);
      StepKeepsTakenOver(p, Exec(p, s, init), later[|later| - 1], h);
    }
  }

  /** At this moment no save of `h` changes the store. */
  predicate Fenced(p: Policy, t: Sys, h: nat)
    requires Constructed(p)
  {
    match t
    case Sys(store, _, _, _) =>
      && Next(p, t, SaveRunning(h)).store == store
      && Next(p, t, SaveFinal(h)).store == store
  }

  lemma NotSavedMakesNoCall(p: Policy, t: Sys, h: nat)
    requires Constructed(p) && !InPhase(t, h, Saved)
    ensures Next(p, t, RunHandler(h)).runs == t.runs
  {
  }

  lemma FencedFrom(p: Policy, s: Sys, later: seq<Step>, h: nat)
    requires Constructed(p) && Inv(Budget(p), s) && TakenOver(s, h)
    ensures var t := Exec(p, s, later);
            && TakenOver(t, h) && Fenced(p, t, h)
            && (!InPhase(s, h, Saved) ==> Next(p, t, RunHandler(h)).runs == t.runs)
  {
    var t := Exec(p, s, later);
    TakenOverStays(p, s, later, h);
    ExecKeepsInv(p, s, later);
    TakenOverWritesNothing(p, t, h);
    if !InPhase(s, h, Saved) {
      NotSavedMakesNoCall(p, t, h);
    }
  }

  /**
   A worker whose lease was taken over stays superseded for good: at no later moment does
   one of its saves change the store, and unless its start was committed before the lease
   was taken over, at no later moment does it call the handler.
   */
  lemma StaleWorkerIsFenced(p: Policy, earlier: seq<Step>, later: seq<Step>, h: nat)
    requires Constructed(p) && TakenOver(Exec(p, INIT, earlier), h)
    ensures var s, t := Exec(p, INIT, earlier), Exec(p, INIT, earlier + later);
            && TakenOver(t, h) && Fenced(p, t, h)
            && (!InPhase(s, h, Saved) ==> Next(p, t, RunHandler(h)).runs == t.runs)
  {
    RunKeepsInv(p, earlier);
    ExecAppend(p, INIT, earlier, later);
    FencedFrom(p, Exec(p, INIT, earlier), later, h);
  }
}
