/**
 The worker of internal/scheduler/application/worker.go as one uninterrupted call,
 and the step sequence of the scheduler model that it performs.
 */
module Worker {
  import opened Outcomes
  import opened RetryPolicy
  import opened Jobs
  import opened JobStore
  import opened SchedulerRuns

  datatype WorkerError =
    | UnknownJobType
    | RetryError
    | JobFailed(jobError: JobError)
    | SaveFailed(saveError: StoreError)
    | HandlerFailed

  /** The five steps of handle `h` in a row; those that do not apply change nothing. */
  function ExecuteSteps(p: Policy, s: Sys, h: nat, succeeded: bool, now: int): Sys
    requires Constructed(p)
  {
    Next(p, Next(p, Next(p, Next(p, Next(p, s, Begin(h)), SaveRunning(h)), RunHandler(h)), Finish(h, succeeded, now)),
      SaveFinal(h))
  }

  class JobWorker {
    const repository: JobRepository
    const retryPolicy: Policy

    constructor (repository: JobRepository, retryPolicy: Policy)
      ensures this.repository == repository && this.retryPolicy == retryPolicy
    {
      this.repository := repository;
      this.retryPolicy := retryPolicy;
    }

    /**
     `succeeded` is what the handler answers if it is called, `now` the business clock
     at that time. The store and the handler calls are those of the model's five steps.
     */
    method Execute(job: Job, known: bool, succeeded: bool, now: int, ghost s: Sys, ghost h: nat)
      returns (called: bool, err: Option<WorkerError>)
      requires Constructed(retryPolicy)
      requires s.store == repository.State() && h in s.handles && s.handles[h] == Handle(job.State(), Acquired)
      modifies repository, job
      ensures !known ==> repository.State() == old(repository.State()) && !called && err == Some(UnknownJobType)
      ensures known ==> repository.State() == ExecuteSteps(retryPolicy, s, h, succeeded, now).store
      ensures var runs := ExecuteSteps(retryPolicy, s, h, succeeded, now).runs;
              known ==>
                runs ==
                s.runs + (if called then [Execution(old(job.State()).id, Increment(old(job.State()).attempts))] else [])
      ensures err == None && called ==> succeeded && job.status == Completed
      ensures called && !succeeded ==> err == Some(HandlerFailed)
    {
      called := false;
      if !known {
        return false, Some(UnknownJobType);
      }
      ghost var s1 := Next(retryPolicy, s, Begin(h));
      ghost var s2 := Next(retryPolicy, s1, SaveRunning(h));
      ghost var s3 := Next(retryPolicy, s2, RunHandler(h));
      ghost var s4 := Next(retryPolicy, s3, Finish(h, succeeded, now));
      if job.attempts > 0 {
        var decision := Decide(retryPolicy, job.attempts);
        if decision.Err? {
          return false, Some(RetryError);
        }
        if !decision.value.retry {
          var exhausted := job.Exhaust();
          if exhausted.Some? {
            return false, Some(JobFailed(exhausted.value));
          }
          var saved := repository.SaveJob(job);
          return false, if saved.Some? then Some(SaveFailed(saved.value)) else None;
        }
      }
      var started := job.Start();
      if started.Some? {
        return false, Some(JobFailed(started.value));
      }
      var running := repository.SaveJob(job);
      if running.Some? {
        return false, Some(SaveFailed(running.value));
      }
      called := true;
      if !succeeded {
        PersistFailure(job, now);
        return true, Some(HandlerFailed);
      }
      var completed := job.Complete();
      assert completed == None;
      var saved := repository.SaveJob(job);
      err := if saved.Some? then Some(SaveFailed(saved.value)) else None;
    }

    /** Retry or exhaustion, as far as it is reached, is what `FinishJob` says. */
    method PersistFailure(job: Job, now: int)
      requires Constructed(retryPolicy)
      modifies repository, job
      ensures match FinishJob(retryPolicy, old(job.State()), false, now)
              case Some(final) => repository.State() == Save(old(repository.State()), final).0
              case None => repository.State() == old(repository.State())
    {
      var failed := job.Fail();
      if failed.Some? {
        return;
      }
      var decision := Decide(retryPolicy, job.attempts);
      if decision.Err? {
        return;
      }
      if decision.value.retry {
        var retried := job.ScheduleRetry(now + decision.value.retryAfter as int);
        if retried.Some? {
          return;
        }
      } else {
        var exhausted := job.Exhaust();
        if exhausted.Some? {
          return;
        }
      }
      var saved := repository.SaveJob(job);
    }
  }
}
