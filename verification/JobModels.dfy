/**
 Durable jobs and their lifecycle (src/gca/jobs/models.py, src/gca/jobs/lifecycle.py).

 `JobData` is the JSON image of a job; `Job` is the object a client edits in memory.  Timestamps and
 lease deadlines are real numbers.  The fields no store or lifecycle rule inspects are folded into
 `details`.
 */
module JobModels {
  import opened Wrappers

  datatype JobStatus = Queued | Running | Paused | Publishing | Completed | Failed | Cancelled
  {
    /** A worker holds the job exactly in these two states. */
    predicate Active() {
      Running? || Publishing?
    }
  }

  type JobId = string
  type Time = real

  datatype RunSpec = RunSpec(repositoryUrl: string, request: string)

  datatype JobData = JobData(
    id: JobId,
    key: Option<string>,
    spec: RunSpec,
    status: JobStatus,
    attempt: nat,
    maxAttempts: nat,
    details: string,
    lastError: string,
    leaseOwner: Option<string>,
    leaseExpiresAt: Option<Time>,
    notBefore: Time,
    version: nat,
    createdAt: Time,
    updatedAt: Time)

  class Job {
    const id: JobId
    const key: Option<string>
    const maxAttempts: nat
    const createdAt: Time
    var spec: RunSpec
    var status: JobStatus
    var attempt: nat
    var details: string
    var lastError: string
    var leaseOwner: Option<string>
    var leaseExpiresAt: Option<Time>
    var notBefore: Time
    var version: nat
    var updatedAt: Time

    constructor FromDict(data: JobData)
      ensures ToDict() == data
    {
      id, key, spec, status := data.id, data.key, data.spec, data.status;
      attempt, maxAttempts, details, lastError := data.attempt, data.maxAttempts, data.details, data.lastError;
      leaseOwner, leaseExpiresAt, notBefore := data.leaseOwner, data.leaseExpiresAt, data.notBefore;
      version, createdAt, updatedAt := data.version, data.createdAt, data.updatedAt;
    }

    function ToDict(): JobData
      reads this
    {
      JobData(id, key, spec, status, attempt, maxAttempts, details, lastError, leaseOwner, leaseExpiresAt,
              notBefore, version, createdAt, updatedAt)
    }

    /** Takes the job from its worker; `queuedError` is what a requeued job records, when anything. */
    method Reclaim(failedError: string, queuedError: Option<string>, now: Time)
      modifies this
      ensures ToDict() == RequeuedData(old(ToDict()), failedError, queuedError, now)
    {
      status := if attempt < maxAttempts then Queued else Failed;
      if status == Failed {
        lastError := failedError;
      } else if queuedError.Some? {
        lastError := queuedError.value;
      }
      leaseOwner := None;
      leaseExpiresAt := None;
      updatedAt := now;
    }
  }

  /** The transition table. */
  function Transitions(status: JobStatus): set<JobStatus> {
    match status
    case Queued => {Running, Cancelled}
    case Running => {Queued, Paused, Publishing, Completed, Failed, Cancelled}
    case Paused => {Queued, Failed, Cancelled}
    case Publishing => {Queued, Completed, Failed, Paused}
    case Failed => {Queued}
    case Completed => {}
    case Cancelled => {}
  }

  /** What a validated move makes of a job. */
  function Moved(job: JobData, status: JobStatus, error: string, now: Time): JobData {
    if status == job.status then job
    else
      var lastError :=
        if error != "" then error
        else if status in {Running, Publishing, Completed} then ""
        else job.lastError;
      var moved := job.(status := status, updatedAt := now, lastError := lastError);
      if status.Active() then moved else moved.(leaseOwner := None, leaseExpiresAt := None)
  }

  predicate CanMove(from: JobStatus, to: JobStatus) {
    to == from || to in Transitions(from)
  }

  predicate CanRetry(job: JobData) {
    job.attempt < job.maxAttempts
  }

  /** Where a job goes when its worker loses it: back to the queue, or to its end after the last attempt. */
  function Reclaimed(job: JobData): JobStatus {
    if CanRetry(job) then Queued else Failed
  }

  /** A job taken from its worker. */
  function RequeuedData(job: JobData, failedError: string, queuedError: Option<string>, now: Time): JobData {
    var status := Reclaimed(job);
    var lastError :=
      if status == Failed then failedError else if queuedError.Some? then queuedError.value else job.lastError;
    job.(status := status, lastError := lastError, leaseOwner := None, leaseExpiresAt := None, updatedAt := now)
  }

  method TransitionJob(job: Job, status: JobStatus, error: string, now: Time) returns (ok: bool)
    modifies job
    ensures ok == CanMove(old(job.status), status)
    ensures job.ToDict() == if ok then Moved(old(job.ToDict()), status, error, now) else old(job.ToDict())
  {
    if status == job.status {
      return true;
    }
    if status !in Transitions(job.status) {
      return false;
    }
    job.status := status;
    job.updatedAt := now;
    if error != "" {
      job.lastError := error;
    } else if status in {Running, Publishing, Completed} {
      job.lastError := "";
    }
    if status !in {Running, Publishing} {
      job.leaseOwner := None;
      job.leaseExpiresAt := None;
    }
    return true;
  }

  /** Bounded retry delay in seconds for a one-based attempt. */
  function RetryDelay(attempt: nat): nat {
    if attempt <= 1 then 30 else if attempt == 2 then 120 else 600
  }
}
