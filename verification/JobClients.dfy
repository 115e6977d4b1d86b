/**
 The clients of the job store: the queue facade (src/gca/jobs/queue.py), the runner (src/gca/jobs/runner.py) and the
 merge clean-up (src/gca/jobs/merge_cleanup.py).  None of them ever moves a job to Running.
 */
module JobClients {
  import opened Wrappers
  import opened JobModels
  import opened JobStore

  /** A client's copy of a job is the one the next save of its row must come from. */
  predicate InSync(t: Table, job: JobData) {
    SaveCommits(t, job)
  }

  // ---------------------------------------------------------------- the queue

  class SqliteJobQueue {
    const store: SqliteJobStore

    constructor (store: SqliteJobStore)
      ensures this.store == store
    {
      this.store := store;
    }

    /** Queues a job that the transition table lets back into the queue; any other is refused. */
    method Enqueue(id: JobId, delay: int, now: Time) returns (result: Result<JobData, StoreError>)
      requires Keyed(store.rows)
      modifies store
      ensures result.Failure? ==> store.rows == old(store.rows)
      ensures result == Failure(InvalidArgument) <==>
                delay < 0 || (id in old(store.rows) && old(store.rows)[id].data.status in {Completed, Cancelled})
      ensures result.Success? <==>
                && delay >= 0 && id in old(store.rows) && old(store.rows)[id].data.status !in {Completed, Cancelled}
                && InSync(old(store.rows), old(store.rows)[id].data)
      ensures result.Success? ==>
                && result.value.status == Queued && result.value.notBefore == now + delay as real
                && id in store.rows && store.rows == old(store.rows)[id := store.rows[id]]
                  && store.rows[id].data == result.value
                && store.rows[id].status == Queued && store.rows[id].notBefore == result.value.notBefore
                && result.value == old(store.rows)[id].data.(status := Queued, notBefore := result.value.notBefore,
                     updatedAt := now, version := old(store.rows)[id].data.version + 1,
                     leaseOwner := result.value.leaseOwner, leaseExpiresAt := result.value.leaseExpiresAt)
                && (old(store.rows)[id].data.status != Queued ==>
                      result.value.leaseOwner.None? && result.value.leaseExpiresAt.None?)
    {
      if delay < 0 {
        return Failure(InvalidArgument);
      }
      var loaded := store.Load(id);
      if loaded.Failure? {
        return Failure(NotFound);
      }
      var job := new Job.FromDict(loaded.value);
      if job.status != Queued {
        var moved := TransitionJob(job, Queued, "", now);
        if !moved {
          return Failure(InvalidArgument);
        }
      }
      job.notBefore := now + delay as real;
      var saved := store.Save(job, now);
      if !saved {
        return Failure(Stale);
      }
      return Success(job.ToDict());
    }

    /** Takes expired jobs back before claiming the oldest due one. */
    method Claim(worker: string, lease: int, now: Time) returns (result: Result<Option<JobData>, StoreError>)
      requires Keyed(store.rows)
      modifies store
      ensures Keyed(store.rows)
      ensures result.Success? && result.value.Some? ==>
                var swept, id := ExpireAll(old(store.rows), now), result.value.value.id;
                Claimable(swept, id, now) && store.rows == swept[id := ClaimedRow(swept[id], worker, lease, now)]
      ensures !(result.Success? && result.value.Some?) ==> store.rows == ExpireAll(old(store.rows), now)
      ensures result == Success(None) ==> forall id | id in store.rows :: !Claimable(store.rows, id, now)
    {
      var expired := store.RequeueExpired(now);
      result := store.ClaimNext(worker, lease, now);
    }

    /** Persists a result; a job that is queued or at work cannot be acknowledged. */
    method Ack(job: Job, now: Time) returns (ok: bool)
      modifies store, job
      ensures ok == (old(job.status) !in {Queued, Running, Publishing} && InSync(old(store.rows), old(job.ToDict())))
      ensures !ok ==> store.rows == old(store.rows)
      ensures ok ==>
                && job.id in store.rows && store.rows == old(store.rows)[job.id := store.rows[job.id]]
                && store.rows[job.id].leaseOwner.None? && store.rows[job.id].leaseExpiresAt.None?
                && store.rows[job.id].status == old(job.status)
                && store.rows[job.id].data == old(job.ToDict()).(leaseOwner := None, leaseExpiresAt := None,
                     version := old(job.version) + 1, updatedAt := now)
    {
      if job.status in {Queued, Running, Publishing} {
        return false;
      }
      job.leaseOwner := None;
      job.leaseExpiresAt := None;
      ok := store.Save(job, now);
    }
  }

  // ---------------------------------------------------------------- the runner

  /** An exception that reaches the runner; a transient one may be retried. */
  datatype Exception = Exception(message: string, transient: bool)

  const LOST := Exception("JobConcurrencyError", false)

  datatype AgentStatus = AgentCompleted | AgentFailed | AgentPaused

  datatype AgentResult = AgentResult(status: AgentStatus, needsHuman: bool, implemented: bool, message: string)

  /** What the publisher does when it is asked; `PublicationError` is the one exception a pause survives. */
  datatype Publisher =
    | Publishes(details: string)
    | RaisesPublicationError(error: Exception)
    | RaisesOther(error: Exception)

  datatype Publication = NotRequested | NoPublisher(error: string) | Requested(publisher: Publisher)

  /** Everything outside the store that a run depends on: each step's exception, and what it adds to the job. */
  datatype Work = Work(
    checkout: Option<Exception>, workspace: string, setup: Option<Exception>, agent: Result<AgentResult, Exception>,
    usage: string, heartbeat: Option<Exception>, publication: Publication, rival: Option<Rival>)

  /** Another client that commits to the row right before a save of the run, counted from zero. */
  datatype Rival = Rival(before: nat, commit: Row -> Row)

  /** Every commit of a client bumps the version. */
  function Overtaken(row: Row, rival: Rival): Row {
    var next := rival.commit(row);
    next.(version := row.version + 1, data := next.data.(version := row.version + 1))
  }

  /** How a run ends for a worker that keeps its job: a status, or the exception that breaks it off. */
  function Ending(work: Work): Result<JobStatus, Exception> {
    if work.checkout.Some? then Failure(work.checkout.value)
    else if work.setup.Some? then Failure(work.setup.value)
    else if work.agent.Failure? then Failure(work.agent.error)
    else ResultEnding(work.agent.value, work.publication, work.heartbeat)
  }

  function ResultEnding(result: AgentResult, publication: Publication, heartbeat: Option<Exception>)
      : Result<JobStatus, Exception> {
    match result.status
    case AgentFailed => Success(Failed)
    case AgentPaused =>
      if result.needsHuman then Success(Completed)
      else if !result.implemented || !publication.Requested? then Success(Paused)
      else if heartbeat.Some? then Failure(heartbeat.value)
      else if publication.publisher.RaisesOther? then Failure(publication.publisher.error)
      else Success(Paused)
    case AgentCompleted =>
      if publication.NotRequested? then Success(Completed)
      else if publication.NoPublisher? then Success(Failed)
      else if heartbeat.Some? then Failure(heartbeat.value)
      else if publication.publisher.Publishes? then Success(Completed)
      else Failure(publication.publisher.error)
  }

  /** The first thing that goes wrong ends a run; the stages come in this order. */
  lemma FirstFailureEnds(work: Work)
    ensures work.checkout.Some? ==> Ending(work) == Failure(work.checkout.value)
    ensures work.checkout.None? && work.setup.Some? ==> Ending(work) == Failure(work.setup.value)
    ensures work.checkout.None? && work.setup.None? && work.agent.Failure? ==> Ending(work) == Failure(work.agent.error)
  {
  }

  /** What an agent's result comes to when nothing went wrong before it. */
  lemma ResultEnds(work: Work, result: AgentResult)
    requires work.checkout.None? && work.setup.None? && work.agent == Success(result)
    ensures result.status == AgentFailed ==> Ending(work) == Success(Failed)
    ensures result.status == AgentPaused && result.needsHuman ==> Ending(work) == Success(Completed)
    ensures result.status == AgentPaused && !result.needsHuman ==>
              (Ending(work) == Success(Paused) <==>
               result.implemented && work.publication.Requested? ==>
                 work.heartbeat.None? && !work.publication.publisher.RaisesOther?)
    ensures result.status == AgentCompleted ==>
              && (Ending(work) == Success(Completed) <==>
                  work.publication.NotRequested? ||
                  (work.publication.Requested? && work.heartbeat.None? && work.publication.publisher.Publishes?))
              && (Ending(work) == Success(Failed) <==> work.publication.NoPublisher?)
    ensures Ending(work).Failure? ==>
              && work.publication.Requested?
              && if work.heartbeat.Some? then Ending(work).error == work.heartbeat.value
                 else !work.publication.publisher.Publishes? &&
                      Ending(work).error == work.publication.publisher.error
  {
  }

  /** The job has left its worker: its row is written from the copy, holds no lease and is not active. */
  predicate Settled(before: Table, after: Table, job: JobData) {
    && job.id in after && after == before[job.id := after[job.id]]
    && after[job.id].data == job && after[job.id].status == job.status
    && job.status in {Completed, Failed, Paused, Queued}
    && after[job.id].leaseOwner.None? && after[job.id].leaseExpiresAt.None?
    && (job.status == Queued ==> CanRetry(job))
  }

  /** The job is still at work, and only its own row has been written, from the copy. */
  predicate AtWork(before: Table, after: Table, job: JobData, start: JobData) {
    && job.id == start.id && job.attempt == start.attempt && job.maxAttempts == start.maxAttempts
    && job.status.Active()
    && (InSync(before, start) ==> InSync(after, job) && after == before[job.id := after[job.id]])
    && (!InSync(before, start) ==> after == before && !InSync(after, job))
  }

  /** The copy of a run is current exactly as long as the run stands on a current one. */
  predicate Stands(before: Table, after: Table, job: JobData, start: JobData) {
    && job.id == start.id
    && (InSync(before, start) ==> InSync(after, job) && after == before[job.id := after[job.id]])
    && (!InSync(before, start) ==> after == before && !InSync(after, job))
  }

  /** A run that broke off: still at work, or lost before it started. */
  predicate BrokeOff(before: Table, after: Table, job: JobData, start: JobData) {
    || AtWork(before, after, job, start)
    || (job.id == start.id && !InSync(before, start) && after == before && !InSync(after, job))
  }

  /** A run goes on standing where it stood, or a rival has overtaken it by writing the row of its job. */
  predicate Rebased(before: Table, start: JobData, base: Table, from: JobData) {
    || (base == before && from == start)
    || (&& InSync(before, start) && !InSync(base, from)
        && start.id in base && base == before[start.id := base[start.id]])
  }

  class JobRunner {
    const store: SqliteJobStore
    var saveCount: nat
    /** The table and the copy this run stands on: those of its start, or those at the commit that overtook it. */
    ghost var base: Table
    ghost var from: JobData

    constructor (store: SqliteJobStore)
      ensures this.store == store
    {
      this.store := store;
      saveCount := 0;
      base := store.rows;
      from := NewJob("", None, RunSpec("", ""), 1, 0.0);
    }

    /**
     Runs a claimed job.  A worker that holds the job to the end always settles it, whatever goes wrong on the way.  One
     that had lost it before, or loses it between two saves, changes no row from then on, and an exception reaches the
     caller.
     */
    method Execute(job: Job, work: Work, now: Time) returns (raised: Option<Exception>)
      modifies this, store, job
      ensures old(job.status) != Running ==> raised.Some? && store.rows == old(store.rows)
      ensures old(job.status) == Running ==>
                && Rebased(old(store.rows), old(job.ToDict()), base, from)
                && (work.rival.None? ==> base == old(store.rows) && from == old(job.ToDict()))
                && (InSync(base, from) ==>
                      && raised.None? && Settled(base, store.rows, job.ToDict())
                      && job.status == match Ending(work)
                                       case Success(status) => status
                                       case Failure(e) =>
                                         if e.transient && from.attempt < from.maxAttempts then Queued else Failed)
                && (!InSync(base, from) ==> raised.Some? && store.rows == base)
    {
      if job.status != Running {
        return Some(Exception("job must be claimed before execution", false));
      }
      saveCount, base, from := 0, store.rows, job.ToDict();
      var error := Prepare(job, work, now);
      if error.None? {
        error := ApplyResult(job, work.agent.value, work, now);
      }
      if error.Some? {
        raised := HandleFailure(job, error.value, work, now);
        return;
      }
      return None;
    }

    /** A save of the run, before which a rival may commit to a row the run still holds. */
    method SaveJob(job: Job, work: Work, now: Time) returns (saved: bool)
      requires Stands(base, store.rows, job.ToDict(), from)
      modifies this, store, job
      ensures Rebased(old(base), old(from), base, from)
      ensures work.rival.None? ==> base == old(base) && from == old(from)
      ensures saved == InSync(base, from)
      ensures saved ==>
                && job.ToDict() == SavedData(old(job.ToDict()), now)
                && store.rows == old(store.rows)[job.id := SavedRow(old(store.rows)[job.id], old(job.ToDict()), now)]
      ensures !saved ==>
                && store.rows == base && !InSync(store.rows, job.ToDict())
                && job.ToDict() == old(job.ToDict()).(updatedAt := now)
      ensures from == old(from) || from == old(job.ToDict())
    {
      if work.rival.Some? && work.rival.value.before == saveCount && job.id in store.rows
         && store.rows[job.id].version == job.version {
        store.rows := store.rows[job.id := Overtaken(store.rows[job.id], work.rival.value)];
        base, from := store.rows, job.ToDict();
      }
      saveCount := saveCount + 1;
      saved := store.Save(job, now);
    }

    /** Everything up to the agent's result, with a save after each stage. */
    method Prepare(job: Job, work: Work, now: Time) returns (error: Option<Exception>)
      requires AtWork(base, store.rows, job.ToDict(), from) && job.status == Running
      modifies this, store, job
      ensures Rebased(old(base), old(from), base, from)
      ensures work.rival.None? ==> base == old(base) && from == old(from)
      ensures AtWork(base, store.rows, job.ToDict(), from) && job.status == Running
      ensures error.None? ==> work.agent.Success? && InSync(base, from)
      ensures InSync(base, from) ==>
                if error.Some? then Ending(work) == Failure(error.value)
                else Ending(work) == ResultEnding(work.agent.value, work.publication, work.heartbeat)
    {
      if work.checkout.Some? {
        return work.checkout;
      }
      job.details := work.workspace;
      var saved := SaveJob(job, work, now);
      if !saved {
        return Some(LOST);
      }
      if work.setup.Some? {
        return work.setup;
      }
      if work.agent.Failure? {
        return Some(work.agent.error);
      }
      job.details := work.usage;
      saved := SaveJob(job, work, now);
      return if saved then None else Some(LOST);
    }

    /** Moves the job and saves it; both may fail. */
    method Settle(job: Job, status: JobStatus, error: string, work: Work, now: Time) returns (raised: Option<Exception>)
      requires AtWork(base, store.rows, job.ToDict(), from) && status in {Completed, Failed, Paused, Queued}
      requires status == Queued ==> CanRetry(job.ToDict())
      modifies this, store, job
      ensures Rebased(old(base), old(from), base, from)
      ensures work.rival.None? ==> base == old(base) && from == old(from)
      ensures raised.None? <==> InSync(base, from)
      ensures raised.None? ==> Settled(base, store.rows, job.ToDict()) && job.status == status
      ensures raised.Some? ==> BrokeOff(base, store.rows, job.ToDict(), from)
    {
      var moved := TransitionJob(job, status, error, now);
      if !moved {
        return Some(Exception("JobTransitionError", false));
      }
      var saved := SaveJob(job, work, now);
      return if saved then None else Some(LOST);
    }

    /** What an agent's result makes of the job, with publication where one is requested. */
    method ApplyResult(job: Job, result: AgentResult, work: Work, now: Time) returns (error: Option<Exception>)
      requires AtWork(base, store.rows, job.ToDict(), from) && job.status == Running
      modifies this, store, job
      ensures Rebased(old(base), old(from), base, from)
      ensures work.rival.None? ==> base == old(base) && from == old(from)
      ensures error.None? ==> InSync(base, from) && Settled(base, store.rows, job.ToDict())
      ensures error.Some? ==> BrokeOff(base, store.rows, job.ToDict(), from)
      ensures InSync(base, from) ==>
                ResultEnding(result, work.publication, work.heartbeat) ==
                if error.Some? then Failure(error.value) else Success(job.status)
    {
      match result.status {
        case AgentPaused =>
          if result.needsHuman {
            error := Settle(job, Completed, "", work, now);
            return;
          }
          error := Pause(job, result, work, now);
        case AgentFailed =>
          error := Settle(job, Failed, result.message, work, now);
        case AgentCompleted =>
          match work.publication {
            case NotRequested => error := Settle(job, Completed, "", work, now);
            case NoPublisher(message) => error := Settle(job, Failed, message, work, now);
            case Requested(publisher) =>
              error := BeginPublishing(job, work, now);
              if error.Some? {
                return;
              }
              match publisher {
                case Publishes(details) => job.details := details;
                case RaisesPublicationError(e) => return Some(e);
                case RaisesOther(e) => return Some(e);
              }
              error := Settle(job, Completed, "", work, now);
          }
      }
    }

    /** A paused run publishes a draft of a finished implementation first, and survives a failure to do so. */
    method Pause(job: Job, result: AgentResult, work: Work, now: Time) returns (error: Option<Exception>)
      requires AtWork(base, store.rows, job.ToDict(), from) && job.status == Running
      requires result.status == AgentPaused && !result.needsHuman
      modifies this, store, job
      ensures Rebased(old(base), old(from), base, from)
      ensures work.rival.None? ==> base == old(base) && from == old(from)
      ensures error.None? ==> InSync(base, from) && Settled(base, store.rows, job.ToDict())
      ensures error.Some? ==> BrokeOff(base, store.rows, job.ToDict(), from)
      ensures InSync(base, from) ==>
                ResultEnding(result, work.publication, work.heartbeat) ==
                if error.Some? then Failure(error.value) else Success(job.status)
    {
      var pause := result.message;
      if result.implemented && work.publication.Requested? {
        error := BeginPublishing(job, work, now);
        if error.Some? {
          return;
        }
        match work.publication.publisher {
          case Publishes(details) => job.details := details;
          case RaisesPublicationError(e) => pause := pause + " Draft publication on pause failed: " + e.message;
          case RaisesOther(e) => return Some(e);
        }
      }
      error := Settle(job, Paused, pause, work, now);
    }

    method BeginPublishing(job: Job, work: Work, now: Time) returns (error: Option<Exception>)
      requires AtWork(base, store.rows, job.ToDict(), from) && job.status == Running
      modifies this, store, job
      ensures Rebased(old(base), old(from), base, from)
      ensures work.rival.None? ==> base == old(base) && from == old(from)
      ensures AtWork(base, store.rows, job.ToDict(), from) && job.status == Publishing
      ensures if InSync(base, from) then error == work.heartbeat else error == Some(LOST)
    {
      var moved := TransitionJob(job, Publishing, "", now);
      var saved := SaveJob(job, work, now);
      return if saved then work.heartbeat else Some(LOST);
    }

    /** A transient exception is retried while attempts remain; any other one is final. */
    method HandleFailure(job: Job, error: Exception, work: Work, now: Time) returns (raised: Option<Exception>)
      requires BrokeOff(base, store.rows, job.ToDict(), from)
      modifies this, store, job
      ensures Rebased(old(base), old(from), base, from)
      ensures work.rival.None? ==> base == old(base) && from == old(from)
      ensures raised.None? <==> InSync(base, from)
      ensures raised.None? ==>
                && Settled(base, store.rows, job.ToDict())
                && job.status == (if error.transient && from.attempt < from.maxAttempts then Queued else Failed)
                && (error.message != "" ==> job.lastError == error.message)
                && (job.status == Queued ==>
                      job.notBefore ==
                      now + if from.attempt <= 1 then 30.0 else if from.attempt == 2 then 120.0 else 600.0)
      ensures raised.Some? ==> store.rows == base
    {
      if error.transient && job.attempt < job.maxAttempts {
        var moved := TransitionJob(job, Queued, error.message, now);
        if !moved {
          return Some(Exception("JobTransitionError", false));
        }
        job.notBefore := now + RetryDelay(job.attempt) as real;
      } else {
        var moved := TransitionJob(job, Failed, error.message, now);
        if !moved {
          return Some(Exception("JobTransitionError", false));
        }
      }
      var saved := SaveJob(job, work, now);
      return if saved then None else Some(LOST);
    }
  }

  // ---------------------------------------------------------------- merge clean-up

  /** The jobs a merge may cancel, among those it matched. */
  predicate Cancellable(t: Table, job: JobData) {
    job.status in {Queued, Running, Paused, Publishing} && CanMove(job.status, Cancelled) && InSync(t, job)
  }

  /**
   One matched job of a merged change request.  A job that is being published cannot be cancelled, and a stale copy
   raises; in both cases its row is untouched.
   */
  method CancelForMerge(store: SqliteJobStore, job: Job, message: string, now: Time) returns (cancelled: bool)
    modifies store, job
    ensures cancelled == Cancellable(old(store.rows), old(job.ToDict()))
    ensures !cancelled ==> store.rows == old(store.rows)
    ensures cancelled ==>
              && job.id in store.rows && store.rows == old(store.rows)[job.id := store.rows[job.id]]
                && store.rows[job.id].status == Cancelled
              && store.rows[job.id].leaseOwner.None? && store.rows[job.id].leaseExpiresAt.None?
              && store.rows[job.id].data == old(job.ToDict()).(status := Cancelled, leaseOwner := None,
                   leaseExpiresAt := None, version := old(job.version) + 1, updatedAt := now,
                   lastError := if message != "" then message else old(job.lastError))
    ensures cancelled <==> old(job.status) in {Queued, Running, Paused} && InSync(old(store.rows), old(job.ToDict()))
  {
    if job.status !in {Queued, Running, Paused, Publishing} {
      return false;
    }
    var moved := TransitionJob(job, Cancelled, message, now);
    if !moved {
      return false;
    }
    cancelled := store.Save(job, now);
  }
}
