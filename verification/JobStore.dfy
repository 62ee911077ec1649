/**
 The job table, its audit log and the runtime sequence, as kept by
 internal/scheduler/adapters/sqlite/repository.go.

 `Store` is one committed database state. `Save` and `Acquire` are the two
 transactions that change it; the class `JobRepository` carries them out in place.
 */
module JobStore {
  import opened Outcomes
  import opened RetryPolicy
  import opened Jobs
  import opened AuditKeys

  datatype AuditRow = AuditRow(job: JobState, sequence: nat)

  datatype Store = Store(rows: map<string, JobState>, audit: seq<AuditRow>, sequence: nat)

  datatype StoreError = StaleLease | NotAcquirable | NotRestorable

  const EMPTY := Store(map[], [], 0)

  /** Whether the log has a row with the snapshot's key. */
  predicate Audited(audit: seq<AuditRow>, job: JobState) {
    audit != [] && (Key(audit[|audit| - 1].job) == Key(job) || Audited(audit[..|audit| - 1], job))
  }

  lemma AuditedSnoc(audit: seq<AuditRow>, row: AuditRow, job: JobState)
    ensures Audited(audit + [row], job) <==> Key(row.job) == Key(job) || Audited(audit, job)
  {
    assert (audit + [row])[..|audit|] == audit;
  }

  /** A sequence number is always taken; the row is inserted unless its key exists. */
  function AppendAudit(st: Store, job: JobState): Store {
    st.(sequence := st.sequence + 1,
        audit := if Audited(st.audit, job) then st.audit else st.audit + [AuditRow(job, st.sequence + 1)])
  }

  /** The guard of the upsert: a new row, or an open row of the same lease generation. */
  predicate Writable(st: Store, job: JobState) {
    job.id in st.rows ==>
      st.rows[job.id].status != Completed && st.rows[job.id].generation == job.generation
  }

  function Save(st: Store, job: JobState): (Store, Option<StoreError>) {
    if Writable(st, job) then
      (AppendAudit(st.(rows := st.rows[job.id := job]), job), None)
    else
      var current := st.rows[job.id];
      (st, if current.status == Completed && job.status == Pending then None
           else if current.generation != job.generation then Some(StaleLease)
           else None)
  }

  predicate Acquirable(s: JobState, leaseCheckAt: int) {
    || s.status == Pending
    || s.status == Failed
    || ((s.status == Leased || s.status == Running) && s.leaseExpiresAt != NO_TIME && s.leaseExpiresAt <= leaseCheckAt)
  }

  function Acquire(st: Store, id: string, owner: string, expiresAt: int,
                   leaseCheckAt: int): Result<(Store, JobState), StoreError> {
    if id !in st.rows || !Acquirable(st.rows[id], leaseCheckAt) then Err(NotAcquirable)
    else if !Restorable(st.rows[id]) then Err(NotRestorable)
    else
      var job := st.rows[id].(status := Leased, leaseOwner := owner, leaseExpiresAt := expiresAt,
          generation := st.rows[id].generation + 1);
      Ok((AppendAudit(st.(rows := st.rows[id := job]), job), job))
  }

  /** The audit rows of one job, oldest first. */
  function AuditOf(audit: seq<AuditRow>, id: string): seq<AuditRow> {
    if audit == [] then []
    else
      var rest := AuditOf(audit[..|audit| - 1], id);
      var last := audit[|audit| - 1];
      if last.job.id == id then rest + [last] else rest
  }

  ghost predicate Increasing(audit: seq<AuditRow>) {
    forall i, j :: 0 <= i < j < |audit| ==> audit[i].sequence < audit[j].sequence
  }

  /**
   Fencing: a save whose generation differs from the stored one changes neither
   row nor audit nor sequence. It reports the stale lease, except that a pending
   snapshot of a completed job is accepted silently.
   */
  lemma StaleSaveIsRefused(st: Store, job: JobState)
    requires job.id in st.rows && st.rows[job.id].generation != job.generation
    ensures Save(st, job).0 == st
    ensures Save(st, job).1 == None <==> st.rows[job.id].status == Completed && job.status == Pending
    ensures Save(st, job).1 != None ==> Save(st, job).1 == Some(StaleLease)
  {
  }

  class JobRepository {
    var rows: map<string, JobState>
    var audit: seq<AuditRow>
    var sequence: nat

    constructor ()
      ensures State() == EMPTY
    {
      rows, audit, sequence := map[], [], 0;
    }

    function State(): Store
      reads this
    {
      Store(rows, audit, sequence)
    }

    method NextRuntimeSequence() returns (value: nat)
      modifies this`sequence
      ensures value == sequence == old(sequence) + 1
    {
      sequence := sequence + 1;
      value := sequence;
    }

    method AppendAuditRow(job: JobState)
      modifies this`audit, this`sequence
      ensures State() == AppendAudit(old(State()), job)
    {
      var runtimeSequence := NextRuntimeSequence();
      var i := |audit|;
      assert audit[..i] == audit;
      while i > 0
        invariant 0 <= i <= |audit|
        invariant Audited(audit, job) <==> Audited(audit[..i], job)
        invariant audit == old(audit)
      {
        i := i - 1;
        assert audit[..i + 1][..i] == audit[..i];
        if Key(audit[i].job) == Key(job) {
          return;
        }
      }
      audit := audit + [AuditRow(job, runtimeSequence)];
    }

    method SaveJob(job: Job) returns (err: Option<StoreError>)
      modifies this
      ensures (State(), err) == Save(old(State()), job.State())
    {
      var excluded := job.State();
      if excluded.id in rows &&
          (rows[excluded.id].status == Completed || rows[excluded.id].generation != excluded.generation) {
        var current := rows[excluded.id];
        if current.status == Completed && excluded.status == Pending {
          return None;
        }
        if current.generation != excluded.generation {
          return Some(StaleLease);
        }
        return None;
      }
      rows := rows[excluded.id := excluded];
      AppendAuditRow(excluded);
      return None;
    }

    method AcquireJob(id: string, owner: string, expiresAt: int, leaseCheckAt: int)
      returns (job: Job?, err: Option<StoreError>)
      modifies this
      ensures match Acquire(old(State()), id, owner, expiresAt, leaseCheckAt)
              case Ok(acquired) =>
                err == None && State() == acquired.0 && job != null && fresh(job) && job.State() == acquired.1
              case Err(e) => err == Some(e) && State() == old(State()) && job == null
    {
      if id !in rows || !Acquirable(rows[id], leaseCheckAt) {
        return null, Some(NotAcquirable);
      }
      if !Restorable(rows[id]) {
        return null, Some(NotRestorable);
      }
      var row := rows[id].(status := Leased, leaseOwner := owner, leaseExpiresAt := expiresAt,
          generation := rows[id].generation + 1);
      rows := rows[id := row];
      AppendAuditRow(row);
      job := new Job.Restore(row);
      err := None;
    }

    /** The listing of one job's snapshots, in order of their sequence numbers. */
    method ListAudit(id: string) returns (snapshots: seq<AuditRow>)
      ensures snapshots == AuditOf(audit, id)
      ensures Increasing(audit) ==> Increasing(snapshots)
    {
      snapshots := [];
      var i := 0;
      while i < |audit|
        invariant 0 <= i <= |audit|
        invariant snapshots == AuditOf(audit[..i], id)
      {
        assert audit[..i + 1][..i] == audit[..i];
        if audit[i].job.id == id {
          snapshots := snapshots + [audit[i]];
        }
        i := i + 1;
      }
      assert audit[..i] == audit;
      AuditOfIncreasing(audit, id);
    }
  }

  lemma {:induction false} AuditOfIncreasing(audit: seq<AuditRow>, id: string)
    ensures forall i :: 0 <= i < |AuditOf(audit, id)| ==> AuditOf(audit, id)[i] in audit
    ensures Increasing(audit) ==> Increasing(AuditOf(audit, id))
  {
    if audit != [] {
      var init, last := audit[..|audit| - 1], audit[|audit| - 1];
      AuditOfIncreasing(init, id);
      assert forall x :: x in AuditOf(init, id) ==> x in init;
      assert forall x :: x in init && Increasing(audit) ==> x.sequence < last.sequence;
    }
  }

  lemma AuditOfSnoc(audit: seq<AuditRow>, row: AuditRow, id: string)
    ensures AuditOf(audit + [row], id) == AuditOf(audit, id) + (if row.job.id == id then [row] else [])
  {
    assert (audit + [row])[..|audit|] == audit;
  }
}
