/**
 What the audit log of the scheduler records over every run: the lifecycle of each job
 and the committed start of each handler call, as long as no two snapshots share an audit key,
 for example because the texts of all jobs hold its separator equally often.
 */
module SchedulerAudit {
  import opened Outcomes
  import opened RetryPolicy
  import opened Jobs
  import opened AuditKeys
  import opened JobStore
  import opened SchedulerRuns
  import opened SchedulerTheorems

  // ----- Jobs whose keys separate their snapshots -----

  /** A class of jobs, closed under the lifecycle, in which no two snapshots share a key. */
  ghost predicate Separating(u: JobState -> bool) {
    && (forall a, b {:trigger Key(a), Key(b)} :: u(a) && u(b) && Key(a) == Key(b) ==> a == b)
    && (forall a, b {:trigger LegalStep(a, b)} :: u(a) && LegalStep(a, b) ==> u(b))
  }

  /**
   Jobs enqueued with the same numbers of separators in id, type, aggregate and cause, for
   example none, are such a class.
   */
  lemma EqualCountsSeparate(c: seq<nat>)
    ensures Separating((j: JobState) => Counts(j) == c)
  {
    var u := (j: JobState) => Counts(j) == c;
    forall a, b | u(a) && u(b) && Key(a) == Key(b)
      ensures a == b
    {
      SameCountsSeparate(a, b);
    }
    forall a, b | u(a) && LegalStep(a, b)
      ensures u(b)
    {
      LegalStepKeepsCounts(a, b);
    }
  }

  lemma LegalStepKeepsCounts(a: JobState, b: JobState)
    requires LegalStep(a, b)
    ensures Counts(b) == Counts(a)
  {
  }

  lemma KeysSeparate(u: JobState -> bool, a: JobState, b: JobState)
    requires Separating(u) && u(a) && u(b) && Key(a) == Key(b)
    ensures a == b
  {
  }

  ghost predicate UniformStore(u: JobState -> bool, st: Store) {
    match st
    case Store(rows, audit, _) =>
      Separating(u) && (forall id :: id in rows ==> u(rows[id])) && (forall i :: 0 <= i < |audit| ==> u(audit[i].job))
  }

  predicate UniformStep(u: JobState -> bool, step: Step) {
    step.Enqueue? && Enqueued(step).Ok? ==> u(Enqueued(step).value)
  }

  /** Every job is enqueued with a content of the class. */
  ghost predicate UniformSteps(u: JobState -> bool, steps: seq<Step>) {
    Separating(u) && forall i :: 0 <= i < |steps| ==> UniformStep(u, steps[i])
  }

  lemma LegalStepStaysUniform(u: JobState -> bool, a: JobState, b: JobState)
    requires Separating(u) && u(a) && LegalStep(a, b)
    ensures u(b)
  {
  }

  lemma UniformWrite(u: JobState -> bool, st: Store, step: Step, job: JobState)
    requires UniformStore(u, st) && UniformStep(u, step) && WriteFits(st, step, job)
    ensures u(job)
  {
    if job.id in st.rows && LegalStep(st.rows[job.id], job) {
      assert u(st.rows[job.id]);
      LegalStepStaysUniform(u, st.rows[job.id], job);
    }
  }

  lemma StepKeepsUniform(u: JobState -> bool, p: Policy, s: Sys, step: Step)
    requires Constructed(p) && Inv(Budget(p), s) && UniformStore(u, s.store) && UniformStep(u, step)
    ensures UniformStore(u, Next(p, s, step).store)
  {
    var job := StepWrites(p, s, step);
    if job.Some? {
      UniformWrite(u, s.store, step, job.value);
      WriteKeepsUniform(u, s.store, job.value);
    }
  }

  lemma WriteKeepsUniform(u: JobState -> bool, st: Store, job: JobState)
    requires UniformStore(u, st) && u(job)
    ensures UniformStore(u, Write(st, job))
  {
    WriteAudits(st, job);
    UniformAfterWrite(u, st, Write(st, job), job);
  }

  lemma UniformAfterWrite(u: JobState -> bool, st: Store, after: Store, job: JobState)
    requires UniformStore(u, st) && u(job) && after.rows == st.rows[job.id := job]
    requires after.audit == st.audit || after.audit == st.audit + [AuditRow(job, st.sequence + 1)]
    ensures UniformStore(u, after)
  {
  }

  lemma {:induction false} RunKeepsUniform(u: JobState -> bool, p: Policy, steps: seq<Step>)
    requires Constructed(p) && UniformSteps(u, steps)
    ensures UniformStore(u, Exec(p, INIT, steps).store)
  {
    if steps != [] {
      var init := steps[..|steps| - 1];
      RunKeepsUniform(u, p, init);
      RunKeepsInv(p, init);
      StepKeepsUniform(u, p, Exec(p, INIT, init), steps[|steps| - 1]);
    }
  }

  // ----- Paths -----

  function Rank(job: JobState): nat {
    4 * job.generation + (match job.status case Leased => 0 case Running => 1 case _ => 2)
  }

  lemma LegalStepsRaiseRank(a: JobState, b: JobState)
    requires LegalStep(a, b)
    ensures Rank(a) < Rank(b)
  {
  }

  /** The snapshots of a job begin with its creation, follow legal lifecycle steps and end in the stored row. */
  ghost predicate AuditIsPath(st: Store, id: string)
    requires id in st.rows
  {
    var path := AuditOf(st.audit, id);
    && path != []
    && path[0].job.status == Pending && path[0].job.generation == 0 && path[0].job.attempts == 0
    && (forall i :: 0 <= i < |path| - 1 ==> LegalStep(path[i].job, path[i + 1].job))
    && path[|path| - 1].job == st.rows[id]
  }

  lemma {:induction false} AuditedIsListed(u: JobState -> bool, audit: seq<AuditRow>, job: JobState)
    requires Separating(u) && Audited(audit, job) && u(job) && forall i :: 0 <= i < |audit| ==> u(audit[i].job)
    ensures exists i :: 0 <= i < |AuditOf(audit, job.id)| && AuditOf(audit, job.id)[i].job == job
  {
    var init, last := audit[..|audit| - 1], audit[|audit| - 1];
    var path := AuditOf(audit, job.id);
    if Key(last.job) == Key(job) {
      KeysSeparate(u, last.job, job);
      assert path[|path| - 1].job == job;
    } else {
      AuditedIsListed(u, init, job);
      var rest := AuditOf(init, job.id);
      var i :| 0 <= i < |rest| && rest[i].job == job;
      assert path[i].job == job;
    }
  }

  lemma {:induction false} RanksRiseAlongPath(path: seq<AuditRow>, i: nat, j: nat)
    requires forall k :: 0 <= k < |path| - 1 ==> LegalStep(path[k].job, path[k + 1].job)
    requires i <= j < |path|
    ensures i < j ==> Rank(path[i].job) < Rank(path[j].job)
  {
    if i < j {
      RanksRiseAlongPath(path, i, j - 1);
      LegalStepsRaiseRank(path[j - 1].job, path[j].job);
    }
  }

  /** A snapshot of at least the row's rank, other than the row itself, is not in the log yet. */
  lemma LaterSnapshotIsNew(u: JobState -> bool, st: Store, job: JobState)
    requires UniformStore(u, st) && u(job) && job.id in st.rows && AuditIsPath(st, job.id)
    requires Rank(st.rows[job.id]) <= Rank(job) && job != st.rows[job.id]
    ensures !Audited(st.audit, job)
  {
    var path := AuditOf(st.audit, job.id);
    if Audited(st.audit, job) {
      AuditedIsListed(u, st.audit, job);
      var i :| 0 <= i < |path| && path[i].job == job;
      RanksRiseAlongPath(path, i, |path| - 1);
    }
  }

  lemma LegalWriteExtendsPath(u: JobState -> bool, st: Store, job: JobState)
    requires UniformStore(u, st) && u(job) && job.id in st.rows && AuditIsPath(st, job.id) &&
             LegalStep(st.rows[job.id], job)
    ensures AuditIsPath(Write(st, job), job.id)
  {
    LegalStepsRaiseRank(st.rows[job.id], job);
    LaterSnapshotIsNew(u, st, job);
    WriteAudits(st, job);
    AppendedIsPath(st, Write(st, job), job);
  }

  lemma AppendedIsPath(st: Store, after: Store, job: JobState)
    requires job.id in st.rows && AuditIsPath(st, job.id) && LegalStep(st.rows[job.id], job)
    requires after.rows == st.rows[job.id := job] && after.audit == st.audit + [AuditRow(job, st.sequence + 1)]
    ensures AuditIsPath(after, job.id)
  {
    AuditOfSnoc(st.audit, AuditRow(job, st.sequence + 1), job.id);
    PathExtended(AuditOf(st.audit, job.id), AuditRow(job, st.sequence + 1));
  }

  lemma PathExtended(path: seq<AuditRow>, row: AuditRow)
    requires path != [] && LegalStep(path[|path| - 1].job, row.job)
    requires forall i :: 0 <= i < |path| - 1 ==> LegalStep(path[i].job, path[i + 1].job)
    ensures var after := path + [row]; forall i :: 0 <= i < |after| - 1 ==> LegalStep(after[i].job, after[i + 1].job)
  {
    var after := path + [row];
    forall i | 0 <= i < |after| - 1
      ensures LegalStep(after[i].job, after[i + 1].job)
    {
      if i < |path| - 1 {
        assert LegalStep(path[i].job, path[i + 1].job);
      }
    }
  }

  lemma CreationBeginsPath(u: JobState -> bool, st: Store, job: JobState)
    requires AuditOk(st) && UniformStore(u, st) && u(job) && job.id !in st.rows
    requires job.status == Pending && job.generation == 0 && job.attempts == 0
    ensures AuditIsPath(Write(st, job), job.id)
  {
    AuditOfSnoc(st.audit, AuditRow(job, st.sequence + 1), job.id);
    if Audited(st.audit, job) {
      AuditedIsListed(u, st.audit, job);
    }
  }

  /** Two neighbouring snapshots of the job that no legal step connects. */
  ghost predicate Torn(audit: seq<AuditRow>, id: string) {
    exists i :: Break(AuditOf(audit, id), i)
  }

  predicate Break(path: seq<AuditRow>, i: int) {
    0 <= i < |path| - 1 && !LegalStep(path[i].job, path[i + 1].job)
  }

  lemma TornStays(st: Store, job: JobState, id: string)
    requires Torn(st.audit, id)
    ensures Torn(Write(st, job).audit, id)
  {
    var i :| Break(AuditOf(st.audit, id), i);
    AuditOfSnoc(st.audit, AuditRow(job, st.sequence + 1), id);
    assert Break(AuditOf(Write(st, job).audit, id), i);
  }

  lemma TornIsNoPath(st: Store, id: string)
    requires id in st.rows && Torn(st.audit, id)
    ensures !AuditIsPath(st, id)
  {
    var i :| Break(AuditOf(st.audit, id), i);
  }

  // ----- Enqueues that overwrite -----

  /** An enqueue that replaces a job that nobody has acquired by other content. */
  predicate Overwrites(st: Store, step: Step, id: string) {
    && step.Enqueue? && step.id == id && Enqueued(step).Ok?
    && id in st.rows && st.rows[id].generation == 0 && Enqueued(step).value != st.rows[id]
  }

  predicate NeverOverwritten(p: Policy, steps: seq<Step>, id: string)
    requires Constructed(p)
  {
    steps == [] || (
      var init := steps[..|steps| - 1];
      NeverOverwritten(p, init, id) && !Overwrites(Exec(p, INIT, init).store, steps[|steps| - 1], id))
  }

  lemma OverwritingTears(u: JobState -> bool, st: Store, job: JobState)
    requires UniformStore(u, st) && u(job) && job.id in st.rows && AuditIsPath(st, job.id) &&
             job != st.rows[job.id]
    requires st.rows[job.id].status == Pending && st.rows[job.id].generation == 0 && job.status == Pending &&
             job.generation == 0
    ensures Torn(Write(st, job).audit, job.id)
  {
    LaterSnapshotIsNew(u, st, job);
    WriteAudits(st, job);
    SecondSnapshotTears(st.audit, AuditRow(job, st.sequence + 1), job.id);
  }

  lemma SecondSnapshotTears(audit: seq<AuditRow>, row: AuditRow, id: string)
    requires row.job.id == id && row.job.status == Pending
    requires AuditOf(audit, id) != [] && AuditOf(audit, id)[|AuditOf(audit, id)| - 1].job.status == Pending
    ensures Torn(audit + [row], id)
  {
    AuditOfSnoc(audit, row, id);
    SecondCreationBreaks(AuditOf(audit, id), row);
  }

  lemma SecondCreationBreaks(path: seq<AuditRow>, row: AuditRow)
    requires path != [] && path[|path| - 1].job.status == Pending && row.job.status == Pending
    ensures Break(path + [row], |path| - 1)
  {
  }

  /** A job's log is a path, or torn once the job was overwritten. */
  ghost predicate PathOrTorn(st: Store, id: string, never: bool) {
    if id !in st.rows then never
    else if never then AuditIsPath(st, id)
    else Torn(st.audit, id)
  }

  lemma WriteKeepsOthers(st: Store, job: JobState, id: string, never: bool)
    requires job.id != id && PathOrTorn(st, id, never)
    ensures PathOrTorn(Write(st, job), id, never)
  {
    if id in st.rows {
      OtherWriteKeepsRow(st, job, id);
      if !never {
        TornStays(st, job, id);
      }
    }
  }

  lemma OwnWrite(u: JobState -> bool, st: Store, step: Step, job: JobState, never: bool)
    requires AuditOk(st) && UniformStore(u, st) && u(job) && WriteFits(st, step, job) &&
             PathOrTorn(st, job.id, never)
    requires job.id in st.rows && st.rows[job.id].generation == 0 ==> st.rows[job.id].status == Pending
    ensures PathOrTorn(Write(st, job), job.id, never && !Overwrites(st, step, job.id))
  {
    var id := job.id;
    if id !in st.rows {
      CreationBeginsPath(u, st, job);
    } else if !never {
      TornStays(st, job, id);
    } else if Overwrites(st, step, id) {
      OverwritingTears(u, st, job);
    } else if job == st.rows[id] {
      assert Audited(st.audit, st.rows[id]);
    } else {
      LegalWriteExtendsPath(u, st, job);
    }
  }

  lemma StepKeepsPathOrTorn(u: JobState -> bool, p: Policy, s: Sys, step: Step, id: string, never: bool)
    requires Constructed(p) && Inv(Budget(p), s) && UniformStore(u, s.store) && UniformStep(u, step) &&
             PathOrTorn(s.store, id, never)
    ensures PathOrTorn(Next(p, s, step).store, id, never && !Overwrites(s.store, step, id))
  {
    var job := StepWrites(p, s, step);
    if job == None || job.value.id != id {
      OverwriteIsOwnWrite(p, s, step, id);
    }
    if job.Some? {
      UniformWrite(u, s.store, step, job.value);
      if job.value.id != id {
        WriteKeepsOthers(s.store, job.value, id, never);
      } else {
        assert id in s.store.rows ==> RowOk(Budget(p), s.store.rows[id]);
        OwnWrite(u, s.store, step, job.value, never);
      }
    }
  }

  lemma OverwriteIsOwnWrite(p: Policy, s: Sys, step: Step, id: string)
    requires Constructed(p) && Inv(Budget(p), s)
    ensures Overwrites(s.store, step, id) ==>
              id in Next(p, s, step).store.rows && Next(p, s, step).store.rows[id] != s.store.rows[id]
  {
    if Overwrites(s.store, step, id) {
      assert RowOk(Budget(p), s.store.rows[id]);
    }
  }

  lemma {:induction false} PathOrTornInEveryRun(u: JobState -> bool, p: Policy, steps: seq<Step>, id: string)
    requires Constructed(p) && UniformSteps(u, steps)
    ensures PathOrTorn(Exec(p, INIT, steps).store, id, NeverOverwritten(p, steps, id))
  {
    if steps != [] {
      var init := steps[..|steps| - 1];
      PathOrTornInEveryRun(u, p, init, id);
      RunKeepsInv(p, init);
      RunKeepsUniform(u, p, init);
      StepKeepsPathOrTorn(u, p, Exec(p, INIT, init), steps[|steps| - 1], id, NeverOverwritten(p, init, id));
    }
  }

  /**
   For jobs whose keys separate, the audit log of a job is, in sequence order, a
   path of legal lifecycle steps from its creation to its row exactly when no enqueue ever
   replaced the job, before it was acquired, by other content.
   */
  lemma {:induction false} AuditIsLifecycleIff(u: JobState -> bool, p: Policy, steps: seq<Step>, id: string)
    requires Constructed(p) && UniformSteps(u, steps) && id in Exec(p, INIT, steps).store.rows
    ensures AuditIsPath(Exec(p, INIT, steps).store, id) <==> NeverOverwritten(p, steps, id)
    ensures Increasing(AuditOf(Exec(p, INIT, steps).store.audit, id))
  {
    PathOrTornInEveryRun(u, p, steps, id);
    RunKeepsInv(p, steps);
    AuditOfIncreasing(Exec(p, INIT, steps).store.audit, id);
    if !NeverOverwritten(p, steps, id) {
      TornIsNoPath(Exec(p, INIT, steps).store, id);
    }
  }

  // ----- Enqueues that repeat their content -----

  /** Enqueues of one id carry one content. */
  ghost predicate SameContent(steps: seq<Step>) {
    forall i, j ::
        0 <= i < |steps| && 0 <= j < |steps| && steps[i].Enqueue? && steps[j].Enqueue? && steps[i].id == steps[j].id ==>
      steps[i] == steps[j]
  }

  /** A row that nobody has acquired is what one of the enqueues wrote. */
  ghost predicate Origins(st: Store, steps: seq<Step>) {
    forall id :: id in st.rows && st.rows[id].generation == 0 ==>
      exists i :: 0 <= i < |steps| && steps[i].Enqueue? && Enqueued(steps[i]) == Ok(st.rows[id])
  }

  lemma StepKeepsOrigins(p: Policy, s: Sys, steps: seq<Step>, step: Step)
    requires Constructed(p) && Inv(Budget(p), s) && Origins(s.store, steps)
    ensures Origins(Next(p, s, step).store, steps + [step])
  {
    var t, all := Next(p, s, step), steps + [step];
    var job := StepWrites(p, s, step);
    forall id | id in t.store.rows && t.store.rows[id].generation == 0
      ensures exists i :: 0 <= i < |all| && all[i].Enqueue? && Enqueued(all[i]) == Ok(t.store.rows[id])
    {
      if job.Some? && job.value.id == id {
        assert all[|steps|] == step;
      } else {
        var i :| 0 <= i < |steps| && steps[i].Enqueue? && Enqueued(steps[i]) == Ok(s.store.rows[id]);
        assert all[i] == steps[i];
      }
    }
  }

  lemma {:induction false} OriginsInEveryRun(p: Policy, steps: seq<Step>)
    requires Constructed(p)
    ensures Origins(Exec(p, INIT, steps).store, steps)
  {
    if steps != [] {
      var init, last := steps[..|steps| - 1], steps[|steps| - 1];
      assert steps == init + [last];
      OriginsInEveryRun(p, init);
      RunKeepsInv(p, init);
      StepKeepsOrigins(p, Exec(p, INIT, init), init, last);
    }
  }

  lemma SameContentPrefix(steps: seq<Step>, step: Step)
    requires SameContent(steps + [step])
    ensures SameContent(steps)
  {
    var all := steps + [step];
    assert forall i :: 0 <= i < |steps| ==> all[i] == steps[i];
  }

  lemma {:induction false} SameContentNeverOverwrites(p: Policy, steps: seq<Step>, id: string)
    requires Constructed(p) && SameContent(steps)
    ensures NeverOverwritten(p, steps, id)
  {
    if steps != [] {
      var init, last := steps[..|steps| - 1], steps[|steps| - 1];
      assert steps == init + [last];
      SameContentPrefix(init, last);
      SameContentNeverOverwrites(p, init, id);
      OriginsInEveryRun(p, init);
      RunKeepsInv(p, init);
      RepetitionIsNoOverwrite(Exec(p, INIT, init).store, init, last, id);
    }
  }

  lemma RepetitionIsNoOverwrite(st: Store, steps: seq<Step>, step: Step, id: string)
    requires Origins(st, steps) && SameContent(steps + [step]) && (id in st.rows ==> st.rows[id].id == id)
    ensures !Overwrites(st, step, id)
  {
    if step.Enqueue? && step.id == id && id in st.rows && st.rows[id].generation == 0 {
      var i :| 0 <= i < |steps| && steps[i].Enqueue? && Enqueued(steps[i]) == Ok(st.rows[id]);
      assert (steps + [step])[i] == steps[i] && (steps + [step])[|steps|] == step;
    }
  }

  /** If enqueues of one id carry one content, every job's log is its lifecycle. */
  lemma {:induction false} AuditLogIsLifecycle(u: JobState -> bool, p: Policy, steps: seq<Step>, id: string)
    requires Constructed(p) && UniformSteps(u, steps) && SameContent(steps) && id in Exec(p, INIT, steps).store.rows
    ensures AuditIsPath(Exec(p, INIT, steps).store, id)
  {
    SameContentNeverOverwrites(p, steps, id);
    AuditIsLifecycleIff(u, p, steps, id);
  }

  /**
   With separators this fails, also for jobs of one type. The ids and aggregates of two
   enqueues share a key when one has in its id what the other has in its aggregate; then
   the second one leaves no audit row at all.
   */
  lemma SharedKeyHidesCreation(p: Policy, x: string, u: string, jobType: string, payload: Bytes, other: Bytes,
                               at: int, causationId: string)
    requires Constructed(p) && x != "" && jobType != "" && at != NO_TIME
    ensures var first :=
            Enqueue(x, jobType, payload, at, jobType + [SEPARATOR] + Hex(other) + [SEPARATOR] + u, causationId);
            var second :=
                Enqueue(x + [SEPARATOR] + jobType + [SEPARATOR] + Hex(payload), jobType, other, at, u, causationId);
            var st := Exec(p, INIT, [first, second]).store;
            && SameContent([first, second])
            && second.id in st.rows && AuditOf(st.audit, second.id) == [] && !AuditIsPath(st, second.id)
  {
    var first := Enqueue(x, jobType, payload, at, jobType + [SEPARATOR] + Hex(other) + [SEPARATOR] + u, causationId);
    var second := Enqueue(x + [SEPARATOR] + jobType + [SEPARATOR] + Hex(payload), jobType, other, at, u, causationId);
    var a, b := Enqueued(first).value, Enqueued(second).value;
    ShiftedFieldsShareKey(a, x, u, payload, other);
    assert |first.id| < |second.id|;
    FirstTwo(p, first, second);
    FirstCreation(p, first, a);
    HiddenCreation(p, Next(p, INIT, first), second, a, b);
  }

  lemma FirstCreation(p: Policy, step: Step, job: JobState)
    requires Constructed(p) && step.Enqueue? && Enqueued(step) == Ok(job)
    ensures Next(p, INIT, step).store == Store(map[job.id := job], [AuditRow(job, 1)], 1)
  {
    assert !Audited(EMPTY.audit, job);
  }

  lemma HiddenCreation(p: Policy, s: Sys, step: Step, a: JobState, b: JobState)
    requires Constructed(p) && step.Enqueue? && Enqueued(step) == Ok(b)
    requires s.store == Store(map[a.id := a], [AuditRow(a, 1)], 1) && a.id != b.id && Key(a) == Key(b)
    ensures var st := Next(p, s, step).store; b.id in st.rows && AuditOf(st.audit, b.id) == []
  {
    assert s.store.audit[..0] == [];
    assert Audited(s.store.audit, b);
    assert Next(p, s, step).store == Write(s.store, b);
  }

  lemma FirstTwo(p: Policy, first: Step, second: Step)
    requires Constructed(p)
    ensures Exec(p, INIT, [first, second]) == Next(p, Next(p, INIT, first), second)
  {
    assert [first, second][..1] == [first] && [first][..0] == [];
    assert Exec(p, INIT, [first]) == Next(p, INIT, first);
  }

  /** A second enqueue of an unacquired job keeps its log a path exactly when it repeats the stored content. */
  lemma ReenqueueKeepsPathIff(st: Store, job: JobState)
    requires job.id in st.rows && AuditIsPath(st, job.id) && AuditOk(st)
    requires st.rows[job.id].generation == 0 && st.rows[job.id].status == Pending
    requires job.generation == 0 && job.status == Pending
    ensures Writable(st, job)
    ensures AuditIsPath(Write(st, job), job.id) <==> job == st.rows[job.id]
  {
    assert Audited(st.audit, st.rows[job.id]);
    WriteAudits(st, job);
    SecondCreation(st, Write(st, job), job);
  }

  /** What a write adds to the audit: its snapshot, unless the key of that is known. */
  lemma WriteAudits(st: Store, job: JobState)
    ensures Write(st, job).rows == st.rows[job.id := job]
    ensures Write(st, job).audit == if Audited(st.audit, job) then st.audit
              else st.audit + [AuditRow(job, st.sequence + 1)]
  {
  }

  lemma SecondCreation(st: Store, after: Store, job: JobState)
    requires job.id in st.rows && AuditIsPath(st, job.id) && st.rows[job.id].status == Pending && job.status == Pending
    requires after.rows == st.rows[job.id := job]
    requires after.audit == st.audit ||
             (job != st.rows[job.id] && after.audit == st.audit + [AuditRow(job, st.sequence + 1)])
    ensures AuditIsPath(after, job.id) <==> job == st.rows[job.id]
  {
    if after.audit != st.audit {
      AuditOfSnoc(st.audit, AuditRow(job, st.sequence + 1), job.id);
      SecondCreationBreaks(AuditOf(st.audit, job.id), AuditRow(job, st.sequence + 1));
      TornIsNoPath(after, job.id);
    }
  }

  // ----- Starts are durable before the handler is called -----

  /** Whether the log holds a running snapshot of this attempt. */
  predicate StartAudited(audit: seq<AuditRow>, e: Execution) {
    audit != [] && (IsStart(audit[|audit| - 1].job, e) || StartAudited(audit[..|audit| - 1], e))
  }

  predicate IsStart(job: JobState, e: Execution) {
    job.status == Running && Execution(job.id, job.attempts) == e
  }

  lemma {:induction false} AuditedStart(u: JobState -> bool, audit: seq<AuditRow>, job: JobState)
    requires Separating(u) && Audited(audit, job) && job.status == Running && u(job) &&
             forall i :: 0 <= i < |audit| ==> u(audit[i].job)
    ensures StartAudited(audit, Execution(job.id, job.attempts))
  {
    var last := audit[|audit| - 1].job;
    if Key(last) == Key(job) {
      KeysSeparate(u, last, job);
    } else {
      AuditedStart(u, audit[..|audit| - 1], job);
    }
  }

  lemma WriteKeepsStarts(u: JobState -> bool, st: Store, job: JobState, e: Execution)
    ensures StartAudited(st.audit, e) ==> StartAudited(Write(st, job).audit, e)
    ensures IsStart(job, e) && UniformStore(u, st) && u(job) ==> StartAudited(Write(st, job).audit, e)
  {
    var row := AuditRow(job, st.sequence + 1);
    assert (st.audit + [row])[..|st.audit|] == st.audit;
    if Audited(st.audit, job) && IsStart(job, e) && UniformStore(u, st) && u(job) {
      AuditedStart(u, st.audit, job);
    }
  }

  ghost predicate StartsDurable(s: Sys) {
    && (forall e :: e in s.runs ==> StartAudited(s.store.audit, e))
    && (forall h :: InPhase(s, h, Saved) ==> StartAudited(s.store.audit, Started(s, h)))
  }

  lemma StepKeepsStartsDurable(u: JobState -> bool, p: Policy, s: Sys, step: Step)
    requires Constructed(p) && Inv(Budget(p), s) && UniformStore(u, s.store) && StartsDurable(s)
    ensures StartsDurable(Next(p, s, step))
  {
    var t := Next(p, s, step);
    var job := StepWrites(p, s, step);
    forall e | StartAudited(s.store.audit, e)
      ensures StartAudited(t.store.audit, e)
    {
      if job.Some? {
        WriteKeepsStarts(u, s.store, job.value, e);
      }
    }
    forall h | InPhase(t, h, Saved)
      ensures StartAudited(t.store.audit, Started(t, h))
    {
      SavedOrigin(p, s, step, h);
      if step == SaveRunning(h) {
        NewStartDurable(u, p, s, h);
      }
    }
    RunOrigin(p, s, step);
  }

  lemma SavedOrigin(p: Policy, s: Sys, step: Step, h: nat)
    requires Constructed(p) && InPhase(Next(p, s, step), h, Saved)
    ensures step == SaveRunning(h) || (InPhase(s, h, Saved) && Started(s, h) == Started(Next(p, s, step), h))
  {
  }

  lemma RunOrigin(p: Policy, s: Sys, step: Step)
    requires Constructed(p)
    ensures Next(p, s, step).runs ==
            if step.RunHandler? && InPhase(s, step.h, Saved) then s.runs + [Started(s, step.h)] else s.runs
  {
  }

  lemma AcceptedSave(p: Policy, s: Sys, h: nat)
    requires Constructed(p) && InPhase(s, h, Starting) && Writable(s.store, s.handles[h].job)
    ensures var (t, job) := (Next(p, s, SaveRunning(h)), s.handles[h].job);
            t.store == Write(s.store, job) && h in t.handles && Started(t, h) == Execution(job.id, job.attempts)
  {
  }

  lemma NewStartDurable(u: JobState -> bool, p: Policy, s: Sys, h: nat)
    requires Constructed(p) && Inv(Budget(p), s) && UniformStore(u, s.store) && StartsDurable(s)
    requires InPhase(Next(p, s, SaveRunning(h)), h, Saved)
    ensures var t := Next(p, s, SaveRunning(h)); StartAudited(t.store.audit, Started(t, h))
  {
    if InPhase(s, h, Starting) {
      var job := s.handles[h].job;
      assert HandleOk(Budget(p), s, h);
      if Writable(s.store, job) {
        var written := HolderWrites(Budget(p), s, h);
        UniformWrite(u, s.store, SaveRunning(h), job);
        AcceptedSave(p, s, h);
        WriteKeepsStarts(u, s.store, job, Execution(job.id, job.attempts));
      } else {
        RefusedSaveDropsHandle(Budget(p), s, h);
      }
    }
  }

  /**
   For jobs whose keys separate, every handler call was preceded by the audit of a
   running snapshot with its attempt number.
   */
  lemma {:induction false} HandlerCallsFollowCommittedStarts(u: JobState -> bool, p: Policy, steps: seq<Step>)
    requires Constructed(p) && UniformSteps(u, steps)
    ensures StartsDurable(Exec(p, INIT, steps))
  {
    if steps != [] {
      var init := steps[..|steps| - 1];
      HandlerCallsFollowCommittedStarts(u, p, init);
      RunKeepsInv(p, init);
      RunKeepsUniform(u, p, init);
      StepKeepsStartsDurable(u, p, Exec(p, INIT, init), steps[|steps| - 1]);
    }
  }
}
