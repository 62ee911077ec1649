/**
 The durable job of internal/scheduler/domain/job.go: its states, its lifecycle
 transitions as functions, and the mutable object that carries them out.
 */
module Jobs {
  import opened Outcomes
  import opened RetryPolicy

  // Times are integers; zero is the unset time, stored as an empty lease expiry.
  const NO_TIME := 0

  // Payloads are byte strings.
  type Byte = c: char | c < '\U{100}' witness 'a'
  type Bytes = seq<Byte>

  datatype JobStatus = Pending | Leased | Running | Completed | Failed | Exhausted

  datatype JobState = JobState(
    id: string,
    jobType: string,
    payload: Bytes,
    scheduledAt: int,
    nextAttemptAt: int,
    status: JobStatus,
    leaseOwner: string,
    leaseExpiresAt: int,
    generation: nat,
    attempts: uint64,
    aggregateId: string,
    causationId: string)

  datatype JobError =
    | InvalidJobId
    | InvalidJobType
    | InvalidScheduledAt
    | InvalidTransition
    | InvalidLeaseOwner
    | InvalidLeaseExpiry
    | InvalidRetryTime

  const MAX_ATTEMPTS: uint64 := 0xFFFF_FFFF_FFFF_FFFF

  /** A 64-bit counter wraps around. */
  function Increment(n: uint64): uint64 {
    if n == MAX_ATTEMPTS then 0 else n + 1
  }

  function NewJob(id: string, jobType: string, payload: Bytes, scheduledAt: int, aggregateId: string,
                  causationId: string):
    Result<JobState, JobError>
  {
    if id == "" then Err(InvalidJobId)
    else if jobType == "" then Err(InvalidJobType)
    else if scheduledAt == NO_TIME then Err(InvalidScheduledAt)
    else Ok(JobState(id, jobType, payload, scheduledAt, scheduledAt, Pending, "", NO_TIME, 0, 0, aggregateId,
        causationId))
  }

  /** What restoring a stored job checks. */
  predicate Restorable(s: JobState) {
    s.id != "" && s.jobType != "" && s.scheduledAt != NO_TIME && s.nextAttemptAt != NO_TIME
  }

  function Unleased(s: JobState): JobState {
    s.(leaseOwner := "", leaseExpiresAt := NO_TIME)
  }

  function AfterLease(s: JobState, owner: string, expiresAt: int): Result<JobState, JobError> {
    if s.status != Pending then Err(InvalidTransition)
    else if owner == "" then Err(InvalidLeaseOwner)
    else if expiresAt == NO_TIME then Err(InvalidLeaseExpiry)
    else Ok(s.(status := Leased, leaseOwner := owner, leaseExpiresAt := expiresAt, generation := s.generation + 1))
  }

  function AfterStart(s: JobState): Result<JobState, JobError> {
    if s.status != Leased then Err(InvalidTransition)
    else Ok(s.(status := Running, attempts := Increment(s.attempts)))
  }

  function AfterComplete(s: JobState): Result<JobState, JobError> {
    if s.status != Running then Err(InvalidTransition)
    else Ok(Unleased(s.(status := Completed)))
  }

  function AfterFail(s: JobState): Result<JobState, JobError> {
    if s.status != Running then Err(InvalidTransition)
    else Ok(Unleased(s.(status := Failed)))
  }

  function AfterExhaust(s: JobState): Result<JobState, JobError> {
    if s.status != Failed && (s.status != Leased || s.attempts == 0) then Err(InvalidTransition)
    else Ok(Unleased(s.(status := Exhausted)))
  }

  function AfterScheduleRetry(s: JobState, at: int): Result<JobState, JobError> {
    if s.status != Failed then Err(InvalidTransition)
    else if at == NO_TIME then Err(InvalidRetryTime)
    else Ok(s.(nextAttemptAt := at, status := Pending))
  }

  /** The legal lifecycle steps between two persisted snapshots of one job. */
  predicate LegalStep(a: JobState, b: JobState) {
    match a.status
    case Pending => LeaseOf(a, b)
    case Leased =>
      LeaseOf(a, b) || b == a.(status := Running, attempts := Increment(a.attempts)) ||
      (a.attempts > 0 && b == Unleased(a.(status := Exhausted)))
    case Running =>
      || LeaseOf(a, b)
      || b == Unleased(a.(status := Completed))
      || b == Unleased(a.(status := Exhausted))
      || b == Unleased(a.(status := Pending, nextAttemptAt := b.nextAttemptAt))
    case _ => false
  }

  /** A new lease takes the next generation and leaves everything but the lease alone. */
  predicate LeaseOf(a: JobState, b: JobState) {
    b == a.(status := Leased, leaseOwner := b.leaseOwner, leaseExpiresAt := b.leaseExpiresAt,
      generation := a.generation + 1)
  }

  /** A transition method either reaches the state its function gives, or reports the error and changes nothing. */
  predicate Outcome(r: Result<JobState, JobError>, before: JobState, after: JobState, err: Option<JobError>) {
    match r
    case Ok(s) => after == s && err == None
    case Err(e) => after == before && err == Some(e)
  }

  class Job {
    const id: string
    const jobType: string
    const payload: Bytes
    const scheduledAt: int
    const aggregateId: string
    const causationId: string
    var nextAttemptAt: int
    var status: JobStatus
    var leaseOwner: string
    var leaseExpiresAt: int
    var generation: nat
    var attempts: uint64

    constructor Restore(s: JobState)
      ensures State() == s
    {
      id, jobType, payload, scheduledAt := s.id, s.jobType, s.payload, s.scheduledAt;
      aggregateId, causationId := s.aggregateId, s.causationId;
      nextAttemptAt, status, leaseOwner, leaseExpiresAt := s.nextAttemptAt, s.status, s.leaseOwner, s.leaseExpiresAt;
      generation, attempts := s.generation, s.attempts;
    }

    function State(): JobState
      reads this
    {
      JobState(id, jobType, payload, scheduledAt, nextAttemptAt, status, leaseOwner, leaseExpiresAt, generation,
        attempts, aggregateId, causationId)
    }

    method Lease(owner: string, expiresAt: int) returns (err: Option<JobError>)
      modifies this
      ensures Outcome(AfterLease(old(State()), owner, expiresAt), old(State()), State(), err)
    {
      if status != Pending {
        return Some(InvalidTransition);
      }
      if owner == "" {
        return Some(InvalidLeaseOwner);
      }
      if expiresAt == NO_TIME {
        return Some(InvalidLeaseExpiry);
      }
      status := Leased;
      leaseOwner := owner;
      leaseExpiresAt := expiresAt;
      generation := generation + 1;
      return None;
    }

    method Start() returns (err: Option<JobError>)
      modifies this
      ensures Outcome(AfterStart(old(State())), old(State()), State(), err)
    {
      if status != Leased {
        return Some(InvalidTransition);
      }
      status := Running;
      attempts := Increment(attempts);
      return None;
    }

    method Complete() returns (err: Option<JobError>)
      modifies this
      ensures Outcome(AfterComplete(old(State())), old(State()), State(), err)
    {
      if status != Running {
        return Some(InvalidTransition);
      }
      status := Completed;
      ClearLease();
      return None;
    }

    method Fail() returns (err: Option<JobError>)
      modifies this
      ensures Outcome(AfterFail(old(State())), old(State()), State(), err)
    {
      if status != Running {
        return Some(InvalidTransition);
      }
      status := Failed;
      ClearLease();
      return None;
    }

    method Exhaust() returns (err: Option<JobError>)
      modifies this
      ensures Outcome(AfterExhaust(old(State())), old(State()), State(), err)
    {
      if status != Failed && (status != Leased || attempts == 0) {
        return Some(InvalidTransition);
      }
      status := Exhausted;
      ClearLease();
      return None;
    }

    method ScheduleRetry(at: int) returns (err: Option<JobError>)
      modifies this
      ensures Outcome(AfterScheduleRetry(old(State()), at), old(State()), State(), err)
    {
      if status != Failed {
        return Some(InvalidTransition);
      }
      if at == NO_TIME {
        return Some(InvalidRetryTime);
      }
      nextAttemptAt := at;
      status := Pending;
      return None;
    }

    method ClearLease()
      modifies this`leaseOwner, this`leaseExpiresAt
      ensures leaseOwner == "" && leaseExpiresAt == NO_TIME
    {
      leaseOwner := "";
      leaseExpiresAt := NO_TIME;
    }
  }
}
