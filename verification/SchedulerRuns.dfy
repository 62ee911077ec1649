/**
 Every run of the durable scheduler: any number of workers, each holding its own
 copy of an acquired job, over one store.

 A step is one committed store transaction or one worker-local action. A crashed
 worker, an unknown job type and a failed save are all `Drop`: the copy is lost and
 the store keeps its last committed state.
 */
module SchedulerRuns {
  import opened Outcomes
  import opened RetryPolicy
  import opened Jobs
  import opened JobStore

  datatype Phase =
    | Acquired // leased, budget not yet checked
    | Starting // started in memory, not yet saved
    | Saved    // the running snapshot is committed
    | Ran      // the handler was called
    | Ending   // a final snapshot awaits its save

  datatype Handle = Handle(job: JobState, phase: Phase)

  datatype Lease = Lease(id: string, generation: nat)

  datatype Execution = Execution(id: string, attempt: uint64)

  /** `leases[h]` is what handle `h` acquired; `runs` lists the handler calls, both oldest first. */
  datatype Sys = Sys(store: Store, handles: map<nat, Handle>, leases: seq<Lease>, runs: seq<Execution>)

  const INIT := Sys(EMPTY, map[], [], [])

  datatype Step =
    | Enqueue(id: string, jobType: string, payload: Bytes, scheduledAt: int, aggregateId: string, causationId: string)
    | Acquire(id: string, owner: string, expiresAt: int, leaseCheckAt: int)
    | Begin(h: nat)
    | SaveRunning(h: nat)
    | RunHandler(h: nat)
    | Finish(h: nat, succeeded: bool, now: int)
    | SaveFinal(h: nat)
    | Drop(h: nat)

  /** The worker's check of the attempt budget and its start of the job (worker.go:69-84). */
  function BeginJob(p: Policy, job: JobState): Option<Handle>
    requires Constructed(p)
  {
    if job.attempts > 0 && Decide(p, job.attempts).Err? then None
    else if job.attempts > 0 && !Decide(p, job.attempts).value.retry then
      match AfterExhaust(job)
      case Ok(s) => Some(Handle(s, Ending))
      case Err(_) => None
    else
      match AfterStart(job)
      case Ok(s) => Some(Handle(s, Starting))
      case Err(_) => None
  }

  /** The worker's final snapshot after its handler returned (worker.go:91-125). */
  function FinishJob(p: Policy, job: JobState, succeeded: bool, now: int): Option<JobState>
    requires Constructed(p)
  {
    if succeeded then Value(AfterComplete(job))
    else
      match AfterFail(job)
      case Err(_) => None
      case Ok(failed) =>
        match Decide(p, failed.attempts)
        case Err(_) => None
        case Ok(d) =>
          Value(if d.retry then AfterScheduleRetry(failed, now + d.retryAfter as int) else AfterExhaust(failed))
  }

  function Value(r: Result<JobState, JobError>): Option<JobState> {
    if r.Ok? then Some(r.value) else None
  }

  function SetHandle(s: Sys, h: nat, handle: Option<Handle>): Sys {
    s.(handles := if handle.Some? then s.handles[h := handle.value] else s.handles - {h})
  }

  predicate InPhase(s: Sys, h: nat, phase: Phase) {
    h in s.handles && s.handles[h].phase == phase
  }

  /** One step; a step that is not enabled changes nothing. */
  function Next(p: Policy, s: Sys, step: Step): Sys
    requires Constructed(p)
  {
    match step
    case Enqueue(id, jobType, payload, scheduledAt, aggregateId, causationId) =>
      (match NewJob(id, jobType, payload, scheduledAt, aggregateId, causationId)
       case Ok(job) => s.(store := Save(s.store, job).0)
       case Err(_) => s)
    case Acquire(id, owner, expiresAt, leaseCheckAt) =>
      (match JobStore.Acquire(s.store, id, owner, expiresAt, leaseCheckAt)
       case Ok((store, job)) =>
         Sys(store, s.handles[|s.leases| := Handle(job, Acquired)], s.leases + [Lease(id, job.generation)], s.runs)
       case Err(_) => s)
    case Begin(h) =>
      if !InPhase(s, h, Acquired) then s
      else SetHandle(s, h, BeginJob(p, s.handles[h].job))
    case SaveRunning(h) =>
      if !InPhase(s, h, Starting) then s
      else
        var (store, err) := Save(s.store, s.handles[h].job);
        SetHandle(s.(store := store), h, if err == None then Some(s.handles[h].(phase := Saved)) else None)
    case RunHandler(h) =>
      if !InPhase(s, h, Saved) then s
      else
        var job := s.handles[h].job;
        SetHandle(s.(runs := s.runs + [Execution(job.id, job.attempts)]), h, Some(s.handles[h].(phase := Ran)))
    case Finish(h, succeeded, now) =>
      if !InPhase(s, h, Ran) then s
      else
        (match FinishJob(p, s.handles[h].job, succeeded, now)
         case Some(job) => SetHandle(s, h, Some(Handle(job, Ending)))
         case None => SetHandle(s, h, None))
    case SaveFinal(h) =>
      if !InPhase(s, h, Ending) then s
      else SetHandle(s.(store := Save(s.store, s.handles[h].job).0), h, None)
    case Drop(h) => if h in s.handles then SetHandle(s, h, None) else s
  }

  /** The state after a sequence of steps. */
  function Exec(p: Policy, s: Sys, steps: seq<Step>): Sys
    requires Constructed(p)
  {
    if steps == [] then s else Next(p, Exec(p, s, steps[..|steps| - 1]), steps[|steps| - 1])
  }

  // ----- The invariant -----

  predicate RowOk(m: uint64, job: JobState) {
    && Restorable(job)
    && job.attempts <= m
    && job.status != Failed
    && (job.generation == 0 ==> job.status == Pending && job.attempts == 0)
    && (job.status == Pending ==> job.attempts < m)
    && (job.status == Running || job.status == Completed ==> job.attempts > 0)
    && (job.status == Exhausted ==> job.attempts == m)
  }

  predicate StatusFits(h: Handle) {
    match h.phase
    case Acquired => h.job.status == Leased
    case Starting => h.job.status == Running
    case Saved => h.job.status == Running
    case Ran => h.job.status == Running
    case Ending => h.job.status == Completed || h.job.status == Pending || h.job.status == Exhausted
  }

  /** What ties a stored row to the copy of the one worker that holds its generation. */
  predicate Holds(m: uint64, row: JobState, h: Handle) {
    if h.phase == Starting || h.phase == Ending then LegalStep(row, h.job) && RowOk(m, h.job)
    else row == h.job
  }

  predicate HandleOk(m: uint64, s: Sys, h: nat)
    requires h in s.handles
  {
    var job := s.handles[h].job;
    && h < |s.leases|
    && s.leases[h] == Lease(job.id, job.generation)
    && StatusFits(s.handles[h])
    && job.id in s.store.rows
    && (s.store.rows[job.id].generation == job.generation ==> Holds(m, s.store.rows[job.id], s.handles[h]))
    && (s.handles[h].phase == Saved ==> 0 < job.attempts <= s.store.rows[job.id].attempts)
  }

  // Each part of the invariant is defined by a match, so that proofs pass it on as a whole.

  ghost predicate LeasesOk(s: Sys) {
    match s
    case Sys(store, _, leases, _) =>
      && (forall i :: 0 <= i < |leases| ==>
            leases[i].id in store.rows && 1 <= leases[i].generation <= store.rows[leases[i].id].generation)
      && (forall i, j ::
           0 <= i < j < |leases| && leases[i].id == leases[j].id ==> leases[i].generation < leases[j].generation)
      && (forall id, g :: id in store.rows && 1 <= g <= store.rows[id].generation ==> Lease(id, g) in leases)
  }

  ghost predicate RunsOk(s: Sys) {
    match s
    case Sys(store, _, _, runs) =>
      && (forall e :: e in runs ==> e.id in store.rows && 0 < e.attempt <= store.rows[e.id].attempts)
      && (forall i, j :: 0 <= i < j < |runs| ==> runs[i] != runs[j])
  }

  function Started(s: Sys, h: nat): Execution
    requires h in s.handles
  {
    Execution(s.handles[h].job.id, s.handles[h].job.attempts)
  }

  /** A committed start whose handler call is still to come is no repetition, and no two of them coincide. */
  ghost predicate SavedOk(s: Sys) {
    match s
    case Sys(_, _, _, runs) =>
      && (forall h :: InPhase(s, h, Saved) ==> Started(s, h) !in runs)
      && (forall h, k :: InPhase(s, h, Saved) && InPhase(s, k, Saved) && h != k ==> Started(s, h) != Started(s, k))
  }

  ghost predicate HandlesOk(m: uint64, s: Sys) {
    match s
    case Sys(_, handles, _, _) => forall h :: h in handles ==> HandleOk(m, s, h)
  }

  ghost predicate AuditOk(st: Store) {
    match st
    case Store(rows, audit, sequence) =>
      && Increasing(audit)
      && (forall i :: 0 <= i < |audit| ==> audit[i].sequence <= sequence)
      && (forall id :: id !in rows ==> AuditOf(audit, id) == [])
      && (forall id :: id in rows ==> Audited(audit, rows[id]))
  }

  ghost predicate RowsOk(m: uint64, st: Store) {
    match st
    case Store(rows, _, _) => forall id :: id in rows ==> rows[id].id == id && RowOk(m, rows[id])
  }

  ghost predicate Inv(m: uint64, s: Sys) {
    match s
    case Sys(store, _, _, _) =>
      RowsOk(m, store) && AuditOk(store) && HandlesOk(m, s) && LeasesOk(s) && RunsOk(s) && SavedOk(s)
  }

  /** The store after a row was written and audited. */
  function Write(st: Store, job: JobState): Store {
    AppendAudit(st.(rows := st.rows[job.id := job]), job)
  }

  lemma WriteKeepsAudit(st: Store, job: JobState)
    requires AuditOk(st)
    ensures AuditOk(Write(st, job))
  {
    var after := Write(st, job);
    var row := AuditRow(job, st.sequence + 1);
    forall id | id in after.rows
      ensures Audited(after.audit, after.rows[id])
    {
      AuditedSnoc(st.audit, row, after.rows[id]);
    }
    forall id | id !in after.rows
      ensures AuditOf(after.audit, id) == []
    {
      AuditOfSnoc(st.audit, row, id);
    }
  }

  /** Rewriting a row without lowering its counters keeps everything but the handles. */
  lemma WriteKeepsTables(m: uint64, s: Sys, t: Sys, job: JobState)
    requires RowsOk(m, s.store) && LeasesOk(s) && RunsOk(s)
    requires t.store.rows == s.store.rows[job.id := job] && t.leases == s.leases && t.runs == s.runs
    requires RowOk(m, job)
    requires if job.id in s.store.rows
             then s.store.rows[job.id].generation == job.generation && s.store.rows[job.id].attempts <= job.attempts
             else job.generation == 0
    ensures RowsOk(m, t.store) && LeasesOk(t) && RunsOk(t)
  {
  }

  /** Changing one handle to a phase other than Saved. */
  lemma OldStartsStayOk(s: Sys, t: Sys, h: nat)
    requires SavedOk(s) && t.runs == s.runs && !InPhase(t, h, Saved)
    requires t.handles == s.handles || t.handles == s.handles - {h} ||
             (h in t.handles && t.handles == s.handles[h := t.handles[h]])
    ensures SavedOk(t)
  {
    assert forall k :: InPhase(t, k, Saved) ==> k != h && InPhase(s, k, Saved) && Started(t, k) == Started(s, k);
  }

  /** Writing the first snapshot of a job that nobody has acquired. */
  lemma FreshWriteKeepsInv(m: uint64, s: Sys, t: Sys, job: JobState)
    requires Inv(m, s) && Writable(s.store, job) && RowOk(m, job) && job.generation == 0
    requires t == s.(store := Write(s.store, job))
    ensures Inv(m, t)
  {
    WriteKeepsTables(m, s, t, job);
    WriteKeepsAudit(s.store, job);
    forall h | h in t.handles
      ensures HandleOk(m, t, h)
    {
      assert HandleOk(m, s, h);
    }
    assert SavedOk(t) by {
      assert forall k :: InPhase(t, k, Saved) ==> InPhase(s, k, Saved) && Started(t, k) == Started(s, k);
    }
  }

  lemma EnqueueKeepsInv(p: Policy, s: Sys, job: JobState, step: Step)
    requires Constructed(p) && Inv(Budget(p), s)
    requires step.Enqueue?
    requires Ok(job) == NewJob(step.id, step.jobType, step.payload, step.scheduledAt, step.aggregateId,
             step.causationId)
    ensures Inv(Budget(p), Next(p, s, step))
  {
    if Writable(s.store, job) {
      FreshWriteKeepsInv(Budget(p), s, s.(store := Write(s.store, job)), job);
    } else {
      assert Next(p, s, step) == s;
    }
  }

  lemma AcquireKeepsLeases(s: Sys, t: Sys, job: JobState)
    requires LeasesOk(s) && job.id in s.store.rows && job.generation == s.store.rows[job.id].generation + 1
    requires t.store.rows == s.store.rows[job.id := job]
    requires t.leases == s.leases + [Lease(job.id, job.generation)]
    ensures LeasesOk(t)
  {
    assert t.leases[|s.leases|] == Lease(job.id, job.generation);
    assert forall l :: l in s.leases ==> l in t.leases;
  }

  lemma LeaseKeepsHandles(m: uint64, s: Sys, t: Sys, job: JobState)
    requires HandlesOk(m, s) && LeasesOk(s) && job.id in s.store.rows
    requires job.status == Leased && job.generation == s.store.rows[job.id].generation + 1
    requires job.attempts == s.store.rows[job.id].attempts
    requires t == Sys(Write(s.store, job), s.handles[|s.leases| := Handle(job, Acquired)], s.leases +
             [Lease(job.id, job.generation)], s.runs)
    ensures HandlesOk(m, t)
    ensures |s.leases| !in s.handles
  {
    assert |s.leases| in s.handles ==> HandleOk(m, s, |s.leases|);
    forall h | h in t.handles
      ensures HandleOk(m, t, h)
    {
      if h != |s.leases| {
        assert HandleOk(m, s, h);
        assert t.leases[h] == s.leases[h];
      }
    }
  }

  lemma LeaseKeepsTables(m: uint64, s: Sys, t: Sys, job: JobState)
    requires RowsOk(m, s.store) && RunsOk(s) && LeasesOk(s)
    requires job.id in s.store.rows && RowOk(m, job)
    requires job.generation == s.store.rows[job.id].generation + 1 && job.attempts == s.store.rows[job.id].attempts
    requires t.store.rows == s.store.rows[job.id := job] && t.runs == s.runs &&
             t.leases == s.leases + [Lease(job.id, job.generation)]
    ensures RowsOk(m, t.store) && RunsOk(t) && LeasesOk(t)
  {
    AcquireKeepsLeases(s, t, job);
  }

  lemma LeaseKeepsInv(m: uint64, s: Sys, t: Sys, job: JobState)
    requires Inv(m, s) && job.id in s.store.rows
    requires RowOk(m, job) && job.status == Leased
    requires job.generation == s.store.rows[job.id].generation + 1 && job.attempts == s.store.rows[job.id].attempts
    requires t == Sys(Write(s.store, job), s.handles[|s.leases| := Handle(job, Acquired)], s.leases +
             [Lease(job.id, job.generation)], s.runs)
    ensures Inv(m, t)
  {
    LeaseKeepsTables(m, s, t, job);
    WriteKeepsAudit(s.store, job);
    LeaseKeepsHandles(m, s, t, job);
    OldStartsStayOk(s, t, |s.leases|);
  }

  lemma BeginGoes(p: Policy, job: JobState)
    requires Constructed(p) && job.status == Leased
    ensures BeginJob(p, job).Some?
    ensures var h := BeginJob(p, job).value;
            StatusFits(h) && (h.phase == Starting || h.phase == Ending)
            && h.job.id == job.id && h.job.generation == job.generation
            && (RowOk(Budget(p), job) ==> Holds(Budget(p), job, h))
  {
    if job.attempts > 0 {
      RetryIffBudgetLeft(p, job.attempts);
    }
  }

  lemma FinishGoes(p: Policy, job: JobState, succeeded: bool, now: int)
    requires Constructed(p) && job.status == Running
    requires FinishJob(p, job, succeeded, now).Some?
    ensures var final := FinishJob(p, job, succeeded, now).value;
            StatusFits(Handle(final, Ending)) && final.id == job.id && final.generation == job.generation
            && (RowOk(Budget(p), job) ==> LegalStep(job, final) && RowOk(Budget(p), final))
  {
    if job.attempts > 0 {
      RetryIffBudgetLeft(p, job.attempts);
    }
  }

  /** Replacing one handle, in a step that leaves store and logs alone. */
  lemma HandleStepKeepsInv(m: uint64, s: Sys, t: Sys, h: nat)
    requires Inv(m, s) && h in s.handles && t.store == s.store && t.leases == s.leases && t.runs == s.runs
    requires t.handles == s.handles - {h} || (h in t.handles && t.handles == s.handles[h := t.handles[h]])
    requires h in t.handles ==> HandleOk(m, t, h) && t.handles[h].phase != Saved
    ensures Inv(m, t)
  {
    forall k | k in t.handles
      ensures HandleOk(m, t, k)
    {
      assert k != h ==> HandleOk(m, s, k);
    }
    OldStartsStayOk(s, t, h);
  }

  lemma BeginKeepsInv(p: Policy, s: Sys, h: nat)
    requires Constructed(p) && Inv(Budget(p), s)
    ensures Inv(Budget(p), Next(p, s, Begin(h)))
  {
    if InPhase(s, h, Acquired) {
      assert HandleOk(Budget(p), s, h);
      BeginGoes(p, s.handles[h].job);
      HandleStepKeepsInv(Budget(p), s, Next(p, s, Begin(h)), h);
    }
  }

  lemma FinishKeepsInv(p: Policy, s: Sys, h: nat, succeeded: bool, now: int)
    requires Constructed(p) && Inv(Budget(p), s)
    ensures Inv(Budget(p), Next(p, s, Finish(h, succeeded, now)))
  {
    if InPhase(s, h, Ran) {
      assert HandleOk(Budget(p), s, h);
      if FinishJob(p, s.handles[h].job, succeeded, now).Some? {
        FinishGoes(p, s.handles[h].job, succeeded, now);
      }
      HandleStepKeepsInv(Budget(p), s, Next(p, s, Finish(h, succeeded, now)), h);
    }
  }

  lemma RunKeepsLogs(s: Sys, t: Sys, h: nat)
    requires RunsOk(s) && SavedOk(s) && InPhase(s, h, Saved)
    requires s.handles[h].job.id in s.store.rows
    requires 0 < s.handles[h].job.attempts <= s.store.rows[s.handles[h].job.id].attempts
    requires t == s.(runs := s.runs + [Started(s, h)], handles := s.handles[h := s.handles[h].(phase := Ran)])
    ensures RunsOk(t) && SavedOk(t)
  {
    forall k | InPhase(t, k, Saved)
      ensures Started(t, k) !in t.runs
    {
      assert InPhase(s, k, Saved);
    }
    forall k, l | InPhase(t, k, Saved) && InPhase(t, l, Saved) && k != l
      ensures Started(t, k) != Started(t, l)
    {
      assert InPhase(s, k, Saved) && InPhase(s, l, Saved);
    }
  }

  lemma RunHandlerKeepsInv(p: Policy, s: Sys, h: nat)
    requires Constructed(p) && Inv(Budget(p), s)
    ensures Inv(Budget(p), Next(p, s, RunHandler(h)))
  {
    var m, t := Budget(p), Next(p, s, RunHandler(h));
    if InPhase(s, h, Saved) {
      assert HandleOk(m, s, h);
      RunKeepsLogs(s, t, h);
      forall k | k in t.handles
        ensures HandleOk(m, t, k)
      {
        assert HandleOk(m, s, k);
      }
    }
  }

  predicate HolderSaves(m: uint64, s: Sys, t: Sys, h: nat) {
    && h in s.handles && (s.handles[h].phase == Starting || s.handles[h].phase == Ending)
    && Writable(s.store, s.handles[h].job)
    && t == s.(store := Write(s.store, s.handles[h].job),
               handles := if s.handles[h].phase == Starting then s.handles[h := s.handles[h].(phase := Saved)]
                   else s.handles - {h})
  }

  lemma HolderMovesOn(m: uint64, s: Sys, t: Sys, h: nat)
    requires HandlesOk(m, s) && HolderSaves(m, s, t, h)
    requires s.handles[h].job.id in s.store.rows ==> RowOk(m, s.store.rows[s.handles[h].job.id])
    ensures var job := s.handles[h].job;
            && RowOk(m, job) && job.id in s.store.rows
            && s.store.rows[job.id].generation == job.generation
            && s.store.rows[job.id].attempts <= job.attempts
            && (s.handles[h].phase == Starting ==> s.store.rows[job.id].attempts < job.attempts)
  {
    assert HandleOk(m, s, h);
  }

  lemma HolderSaveKeepsHandles(m: uint64, s: Sys, t: Sys, h: nat)
    requires HandlesOk(m, s) && LeasesOk(s) && HolderSaves(m, s, t, h)
    ensures HandlesOk(m, t)
  {
    var job := s.handles[h].job;
    assert HandleOk(m, s, h);
    forall k | k in t.handles
      ensures HandleOk(m, t, k)
    {
      assert HandleOk(m, s, k);
      if k != h && s.handles[k].job.id == job.id {
        assert s.leases[k].generation != s.leases[h].generation;
      }
    }
  }

  lemma HolderSaveKeepsStarts(m: uint64, s: Sys, t: Sys, h: nat)
    requires HandlesOk(m, s) && RunsOk(s) && SavedOk(s) && HolderSaves(m, s, t, h)
    ensures SavedOk(t)
  {
    assert HandleOk(m, s, h);
    forall k | InPhase(t, k, Saved)
      ensures Started(t, k) !in t.runs
    {
      if k != h {
        assert InPhase(s, k, Saved) && Started(s, k) == Started(t, k);
      }
    }
    forall k, l | InPhase(t, k, Saved) && InPhase(t, l, Saved) && k != l
      ensures Started(t, k) != Started(t, l)
    {
      if k == h {
        assert InPhase(s, l, Saved) && HandleOk(m, s, l);
      } else if l == h {
        assert InPhase(s, k, Saved) && HandleOk(m, s, k);
      } else {
        assert InPhase(s, k, Saved) && InPhase(s, l, Saved);
      }
    }
  }

  /** A save by the holder of the stored generation. */
  lemma HolderSaveKeepsInv(m: uint64, s: Sys, t: Sys, h: nat)
    requires Inv(m, s) && HolderSaves(m, s, t, h)
    ensures Inv(m, t)
  {
    HolderMovesOn(m, s, t, h);
    WriteKeepsTables(m, s, t, s.handles[h].job);
    WriteKeepsAudit(s.store, s.handles[h].job);
    HolderSaveKeepsHandles(m, s, t, h);
    HolderSaveKeepsStarts(m, s, t, h);
  }

  lemma RefusedSaveDropsHandle(m: uint64, s: Sys, h: nat)
    requires Inv(m, s) && InPhase(s, h, Starting) && !Writable(s.store, s.handles[h].job)
    ensures Save(s.store, s.handles[h].job).1 == Some(StaleLease)
  {
    assert HandleOk(m, s, h);
  }

  lemma LosingHandleKeepsInv(m: uint64, s: Sys, h: nat)
    requires Inv(m, s) && h in s.handles
    ensures Inv(m, s.(handles := s.handles - {h}))
  {
    HandleStepKeepsInv(m, s, s.(handles := s.handles - {h}), h);
  }

  lemma RefusedSave(p: Policy, s: Sys, h: nat)
    requires Constructed(p) && InPhase(s, h, Starting) && Save(s.store, s.handles[h].job) == (s.store, Some(StaleLease))
    ensures Next(p, s, SaveRunning(h)) == s.(handles := s.handles - {h})
  {
  }

  lemma SaveRunningKeepsInv(p: Policy, s: Sys, h: nat)
    requires Constructed(p) && Inv(Budget(p), s)
    ensures Inv(Budget(p), Next(p, s, SaveRunning(h)))
  {
    if InPhase(s, h, Starting) {
      if Writable(s.store, s.handles[h].job) {
        HolderSaveKeepsInv(Budget(p), s, Next(p, s, SaveRunning(h)), h);
      } else {
        RefusedSaveDropsHandle(Budget(p), s, h);
        RefusedSave(p, s, h);
        LosingHandleKeepsInv(Budget(p), s, h);
      }
    } else {
      assert Next(p, s, SaveRunning(h)) == s;
    }
  }

  lemma RefusedEnd(p: Policy, s: Sys, h: nat)
    requires Constructed(p) && InPhase(s, h, Ending) && !Writable(s.store, s.handles[h].job)
    ensures Next(p, s, SaveFinal(h)) == s.(handles := s.handles - {h})
  {
  }

  lemma SaveFinalKeepsInv(p: Policy, s: Sys, h: nat)
    requires Constructed(p) && Inv(Budget(p), s)
    ensures Inv(Budget(p), Next(p, s, SaveFinal(h)))
  {
    if InPhase(s, h, Ending) {
      if Writable(s.store, s.handles[h].job) {
        HolderSaveKeepsInv(Budget(p), s, Next(p, s, SaveFinal(h)), h);
      } else {
        RefusedEnd(p, s, h);
        LosingHandleKeepsInv(Budget(p), s, h);
      }
    } else {
      assert Next(p, s, SaveFinal(h)) == s;
    }
  }

  lemma AcquireKeepsInv(p: Policy, s: Sys, id: string, owner: string, expiresAt: int, leaseCheckAt: int)
    requires Constructed(p) && Inv(Budget(p), s)
    ensures Inv(Budget(p), Next(p, s, Acquire(id, owner, expiresAt, leaseCheckAt)))
  {
    var r := JobStore.Acquire(s.store, id, owner, expiresAt, leaseCheckAt);
    if r.Ok? {
      assert RowOk(Budget(p), s.store.rows[id]);
      LeaseKeepsInv(Budget(p), s, Next(p, s, Acquire(id, owner, expiresAt, leaseCheckAt)), r.value.1);
    }
  }

  lemma DropKeepsInv(p: Policy, s: Sys, h: nat)
    requires Constructed(p) && Inv(Budget(p), s)
    ensures Inv(Budget(p), Next(p, s, Drop(h)))
  {
    if h in s.handles {
      HandleStepKeepsInv(Budget(p), s, Next(p, s, Drop(h)), h);
    }
  }

  lemma {:induction false} StepKeepsInv(p: Policy, s: Sys, step: Step)
    requires Constructed(p) && Inv(Budget(p), s)
    ensures Inv(Budget(p), Next(p, s, step))
  {
    match step
    case Enqueue(id, jobType, payload, scheduledAt, aggregateId, causationId) =>
      var job := NewJob(id, jobType, payload, scheduledAt, aggregateId, causationId);
      if job.Ok? {
        EnqueueKeepsInv(p, s, job.value, step);
      }
    case Acquire(id, owner, expiresAt, leaseCheckAt) => AcquireKeepsInv(p, s, id, owner, expiresAt, leaseCheckAt);
    case Begin(h) => BeginKeepsInv(p, s, h);
    case SaveRunning(h) => SaveRunningKeepsInv(p, s, h);
    case RunHandler(h) => RunHandlerKeepsInv(p, s, h);
    case Finish(h, succeeded, now) => FinishKeepsInv(p, s, h, succeeded, now);
    case SaveFinal(h) => SaveFinalKeepsInv(p, s, h);
    case Drop(h) => DropKeepsInv(p, s, h);
  }

  lemma {:induction false} RunKeepsInv(p: Policy, steps: seq<Step>)
    requires Constructed(p)
    ensures Inv(Budget(p), Exec(p, INIT, steps))
  {
    if steps != [] {
      RunKeepsInv(p, steps[..|steps| - 1]);
      StepKeepsInv(p, Exec(p, INIT, steps[..|steps| - 1]), steps[|steps| - 1]);
    }
  }
}
