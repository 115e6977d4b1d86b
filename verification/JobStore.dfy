/**
 The SQLite job table (src/gca/jobs/store.py).

 A row keeps its own status, version, due time and lease columns beside the JSON image of the job.
 Every SQL transaction is one function on tables, and the store class runs it on its `rows`.  A guarded
 UPDATE compares columns, while the transactions that rewrite a row read the JSON image.
 */
module JobStore {
  import opened Wrappers
  import opened JobModels
  import opened Text

  datatype Row = Row(
    key: Option<string>,
    repositoryUrl: string,
    status: JobStatus,
    data: JobData,
    version: nat,
    notBefore: Time,
    leaseOwner: Option<string>,
    leaseExpiresAt: Option<Time>,
    createdAt: Time)

  type Table = map<JobId, Row>

  datatype StoreError = InvalidArgument | NotFound | Stale | IdempotencyConflict | Integrity

  /** The JSON image of a row carries the row's primary key. */
  ghost predicate Keyed(t: Table) {
    forall id | id in t :: t[id].data.id == id
  }

  // ---------------------------------------------------------------- create

  function NewJob(id: JobId, key: Option<string>, spec: RunSpec, maxAttempts: nat, now: Time): JobData {
    JobData(id, key, spec, Queued, 0, maxAttempts, "", "", None, None, 0.0, 0, now, now)
  }

  function Inserted(job: JobData): Row {
    Row(job.key, job.spec.repositoryUrl, job.status, job, job.version, job.notBefore,
        job.leaseOwner, job.leaseExpiresAt, job.createdAt)
  }

  // ---------------------------------------------------------------- save

  /** The guard of the optimistic update. */
  predicate SaveCommits(t: Table, job: JobData) {
    job.id in t && t[job.id].version == job.version
  }

  /** The JSON image that a save writes. */
  function SavedData(job: JobData, now: Time): JobData {
    job.(version := job.version + 1, updatedAt := now)
  }

  /** An active job keeps the lease columns of its row: heartbeats own them. */
  function SavedRow(row: Row, job: JobData, now: Time): Row {
    row.(status := job.status,
         data := SavedData(job, now),
         version := job.version + 1,
         notBefore := job.notBefore,
         leaseOwner := if job.status.Active() then row.leaseOwner else job.leaseOwner,
         leaseExpiresAt := if job.status.Active() then row.leaseExpiresAt else job.leaseExpiresAt)
  }

  // ---------------------------------------------------------------- claim

  predicate RepositoryIdle(t: Table, id: JobId)
    requires id in t
  {
    forall other | other in t && other != id && t[other].repositoryUrl == t[id].repositoryUrl ::
      !t[other].status.Active()
  }

  predicate Claimable(t: Table, id: JobId, now: Time) {
    id in t && t[id].status == Queued && t[id].notBefore <= now && RepositoryIdle(t, id)
  }

  function ClaimedData(job: JobData, worker: string, lease: int, now: Time): JobData {
    job.(status := Running, attempt := job.attempt + 1, lastError := "", leaseOwner := Some(worker),
         leaseExpiresAt := Some(now + lease as real), updatedAt := now, version := job.version + 1)
  }

  function ClaimedRow(row: Row, worker: string, lease: int, now: Time): Row {
    var job := ClaimedData(row.data, worker, lease, now);
    row.(status := Running, data := job, version := job.version, leaseOwner := job.leaseOwner,
         leaseExpiresAt := job.leaseExpiresAt)
  }

  // ---------------------------------------------------------------- losing a lease

  function RequeuedRow(row: Row, failedError: string, queuedError: Option<string>, now: Time): Row {
    var job := RequeuedData(row.data, failedError, queuedError, now);
    row.(status := job.status, data := job.(version := job.version + 1), version := job.version + 1,
         leaseOwner := None, leaseExpiresAt := None)
  }

  predicate LeaseExpired(row: Row, now: Time) {
    row.status.Active() && row.leaseExpiresAt.Some? && row.leaseExpiresAt.value <= now
  }

  const EXPIRED_FINAL := "worker lease expired after final attempt"
  const RELEASED_FINAL := "worker released lease after final attempt"
  const RELEASED := "worker released lease on shutdown"
  const FORCED_FINAL := "operator requeue after final attempt"
  const FORCED := "operator requeue cleared worker lease"

  /** The rows that the sweep at `now` takes from their workers. */
  predicate Expirable(row: Row, now: Time) {
    LeaseExpired(row, now) && row.data.version == row.version
  }

  function ExpiredRow(row: Row, now: Time): Row {
    if Expirable(row, now) then RequeuedRow(row, EXPIRED_FINAL, None, now) else row
  }

  function ExpireAll(t: Table, now: Time): Table {
    map id | id in t :: ExpiredRow(t[id], now)
  }

  function ExpiredAt(t: Table, now: Time): set<JobId> {
    set id | id in t && LeaseExpired(t[id], now)
  }

  function TakenAt(t: Table, now: Time): set<JobId> {
    set id | id in t && Expirable(t[id], now)
  }

  /** The table in the middle of a sweep, with the rows in `todo` still to be visited. */
  ghost function Swept(t: Table, todo: set<JobId>, now: Time): Table {
    map id | id in t :: if id in todo then t[id] else ExpiredRow(t[id], now)
  }

  lemma SweptStep(t: Table, todo: set<JobId>, id: JobId, now: Time)
    requires id in todo && id in t
    ensures Swept(t, todo, now)[id := ExpiredRow(t[id], now)] == Swept(t, todo - {id}, now)
    ensures |TakenAt(t, now) - (todo - {id})| == |TakenAt(t, now) - todo| + if Expirable(t[id], now) then 1 else 0
  {
    var taken := TakenAt(t, now);
    if Expirable(t[id], now) {
      assert taken - (todo - {id}) == (taken - todo) + {id};
    } else {
      assert taken - (todo - {id}) == taken - todo;
    }
  }

  lemma SweptEnds(t: Table, now: Time)
    ensures Swept(t, ExpiredAt(t, now), now) == t
    ensures TakenAt(t, now) - ExpiredAt(t, now) == {}
    ensures Swept(t, {}, now) == ExpireAll(t, now)
    ensures Keyed(t) ==> Keyed(ExpireAll(t, now))
  {
  }

  predicate Releasable(t: Table, id: JobId, worker: string) {
    && id in t
    && t[id].data.status.Active() && t[id].data.leaseOwner == Some(worker)
    && t[id].version == t[id].data.version && t[id].leaseOwner == Some(worker)
  }

  function ReleasedRow(row: Row, now: Time): Row {
    RequeuedRow(row, RELEASED_FINAL, Some(RELEASED), now)
  }

  // ---------------------------------------------------------------- heartbeat

  predicate HoldsLease(t: Table, id: JobId, worker: string) {
    id in t && t[id].leaseOwner == Some(worker) && t[id].status.Active()
  }

  /** A heartbeat moves the deadline of the column and of the JSON image, and leaves the version alone. */
  function TouchedRow(row: Row, lease: int, now: Time): Row {
    var deadline := Some(now + lease as real);
    row.(data := row.data.(leaseExpiresAt := deadline, updatedAt := now), leaseExpiresAt := deadline)
  }

  predicate KeyTaken(t: Table, key: Option<string>) {
    exists id | id in t :: t[id].key == key
  }

  predicate Blank(s: string) {
    forall c | c in s :: IsSpace(c)
  }

  class SqliteJobStore {
    var rows: Table

    constructor ()
      ensures rows == map[]
    {
      rows := map[];
    }

    /** The one row registered under an idempotency key, when there is one. */
    method FindByIdempotency(key: string) returns (found: Option<JobData>)
      ensures found.Some? ==> exists id | id in rows :: rows[id].key == Some(key) && rows[id].data == found.value
      ensures found.None? ==> forall id | id in rows :: rows[id].key != Some(key)
    {
      var todo := rows.Keys;
      while todo != {}
        invariant todo <= rows.Keys
        invariant forall id | id in rows && id !in todo :: rows[id].key != Some(key)
        decreases |todo|
      {
        var id :| id in todo;
        if rows[id].key == Some(key) {
          return Some(rows[id].data);
        }
        todo := todo - {id};
      }
      return None;
    }

    /**
     Creates a queued job, or answers an exact replay with the job already stored.  `newId` is the
     generated identifier; a collision is the integrity error of the primary key.
     */
    method Create(newId: JobId, spec: RunSpec, key: Option<string>, maxAttempts: int, now: Time)
      returns (result: Result<JobData, StoreError>)
      modifies this
      ensures result.Failure? ==> rows == old(rows)
      ensures result == Failure(InvalidArgument) <==> !(1 <= maxAttempts <= 20) || (key.Some? && Blank(key.value))
      ensures result != Failure(InvalidArgument) && key.Some? && KeyTaken(old(rows), key) ==>
                && rows == old(rows)
                && exists id | id in rows && rows[id].key == key ::
                     result == if rows[id].data.spec == spec then Success(rows[id].data)
                               else Failure(IdempotencyConflict)
      ensures result != Failure(InvalidArgument) && !(key.Some? && KeyTaken(old(rows), key)) ==>
                if newId in old(rows) then result == Failure(Integrity)
                else
                  && result == Success(JobData(newId, key, spec, Queued, 0, maxAttempts, "", "", None, None, 0.0, 0,
                                               now, now))
                  && rows == old(rows)[newId := Row(key, spec.repositoryUrl, Queued, result.value, 0, 0.0, None, None,
                                                    now)]
    {
      if !(1 <= maxAttempts <= 20) || (key.Some? && Blank(key.value)) {
        return Failure(InvalidArgument);
      }
      if key.Some? {
        var existing := FindByIdempotency(key.value);
        if existing.Some? {
          return if existing.value.spec != spec then Failure(IdempotencyConflict) else Success(existing.value);
        }
      }
      if newId in rows {
        return Failure(Integrity);
      }
      var job := NewJob(newId, key, spec, maxAttempts, now);
      rows := rows[newId := Inserted(job)];
      return Success(job);
    }

    method Load(id: JobId) returns (result: Result<JobData, StoreError>)
      ensures result == if id in rows then Success(rows[id].data) else Failure(NotFound)
    {
      result := if id in rows then Success(rows[id].data) else Failure(NotFound);
    }

    /** Optimistic update.  The caller's object is stamped even when the update is refused. */
    method Save(job: Job, now: Time) returns (ok: bool)
      modifies this, job
      ensures ok == SaveCommits(old(rows), old(job.ToDict()))
      ensures !ok ==> rows == old(rows) && job.ToDict() == old(job.ToDict()).(updatedAt := now)
      ensures ok ==> job.ToDict() == SavedData(old(job.ToDict()), now)
      ensures ok ==> rows == old(rows)[job.id := SavedRow(old(rows[job.id]), old(job.ToDict()), now)]
    {
      job.updatedAt := now;
      var nextVersion := job.version + 1;
      var active := job.status in {Running, Publishing};
      if job.id !in rows || rows[job.id].version != job.version {
        return false;
      }
      var row := rows[job.id];
      var updated := row.(status := job.status, data := job.ToDict().(version := nextVersion),
                          version := nextVersion, notBefore := job.notBefore,
                          leaseOwner := if active then row.leaseOwner else job.leaseOwner,
                          leaseExpiresAt := if active then row.leaseExpiresAt else job.leaseExpiresAt);
      rows := rows[job.id := updated];
      job.version := nextVersion;
      return true;
    }

    /** Claims the oldest due queued job whose repository is idle. */
    method ClaimNext(worker: string, lease: int, now: Time) returns (result: Result<Option<JobData>, StoreError>)
      requires Keyed(rows)
      modifies this
      ensures Keyed(rows)
      ensures result == Failure(InvalidArgument) <==> Blank(worker) || lease <= 0
      ensures !(result.Success? && result.value.Some?) ==> rows == old(rows)
      ensures result == Success(None) ==> forall id | id in rows :: !Claimable(rows, id, now)
      ensures result.Success? && result.value.Some? ==>
                var id := result.value.value.id;
                && Claimable(old(rows), id, now)
                && (forall other | other in old(rows) && Claimable(old(rows), other, now) ::
                      old(rows)[id].createdAt <= old(rows)[other].createdAt)
                && rows == old(rows)[id := ClaimedRow(old(rows)[id], worker, lease, now)]
                && result.value.value == rows[id].data
    {
      hide ClaimedRow, Claimable, Blank;
      if Blank(worker) || lease <= 0 {
        return Failure(InvalidArgument);
      }
      var due := set id | id in rows && Claimable(rows, id, now);
      if due == {} {
        assert forall id | id in rows :: Claimable(rows, id, now) ==> id in due;
        return Success(None);
      }
      var first :| first in due;
      var todo := due;
      while todo != {}
        invariant todo <= due && first in due
        invariant forall id | id in due - todo :: rows[first].createdAt <= rows[id].createdAt
        decreases |todo|
      {
        var id :| id in todo;
        if rows[id].createdAt < rows[first].createdAt {
          first := id;
        }
        todo := todo - {id};
      }
      result := ClaimRow(first, worker, lease, now);
    }

    /** Claims one known job when it is due and its repository is idle. */
    method Claim(id: JobId, worker: string, lease: int, now: Time) returns (result: Result<Option<JobData>, StoreError>)
      requires Keyed(rows)
      modifies this
      ensures Keyed(rows)
      ensures result == Failure(InvalidArgument) <==> Blank(worker) || lease <= 0
      ensures !(result.Success? && result.value.Some?) ==> rows == old(rows)
      ensures result == Success(None) ==> !Claimable(rows, id, now)
      ensures result.Failure? && !Blank(worker) && lease > 0 ==>
                result == Failure(Stale) && id in rows && rows[id].data.version != rows[id].version
      ensures result.Success? && result.value.Some? ==>
                && Claimable(old(rows), id, now)
                && rows == old(rows)[id := ClaimedRow(old(rows)[id], worker, lease, now)]
                && result.value.value == rows[id].data
    {
      if Blank(worker) || lease <= 0 {
        return Failure(InvalidArgument);
      }
      if !Claimable(rows, id, now) {
        return Success(None);
      }
      result := ClaimRow(id, worker, lease, now);
    }

    /** The guarded update inside both claim transactions. */
    method ClaimRow(id: JobId, worker: string, lease: int, now: Time)
        returns (result: Result<Option<JobData>, StoreError>)
      requires Keyed(rows) && Claimable(rows, id, now)
      modifies this
      ensures Keyed(rows)
      ensures old(rows[id].data.version != rows[id].version) ==> result == Failure(Stale) && rows == old(rows)
      ensures old(rows[id].data.version == rows[id].version) ==>
                && rows == old(rows)[id := ClaimedRow(old(rows)[id], worker, lease, now)]
                && result == Success(Some(rows[id].data))
    {
      assert id in rows;
      hide Claimable;
      var job := new Job.FromDict(rows[id].data);
      job.status := Running;
      job.attempt := job.attempt + 1;
      job.lastError := "";
      job.leaseOwner := Some(worker);
      job.leaseExpiresAt := Some(now + lease as real);
      job.updatedAt := now;
      var nextVersion := job.version + 1;
      if rows[id].version != job.version {
        return Failure(Stale);
      }
      var payload := job.ToDict().(version := nextVersion);
      assert payload == ClaimedData(rows[id].data, worker, lease, now);
      hide ClaimedData;
      rows := rows[id := rows[id].(status := job.status, data := payload, version := nextVersion,
                                   leaseOwner := job.leaseOwner, leaseExpiresAt := job.leaseExpiresAt)];
      job.version := nextVersion;
      assert job.ToDict() == payload;
      return Success(Some(job.ToDict()));
    }

    /** Takes every active job whose lease column has run out, one guarded update at a time. */
    method RequeueExpired(now: Time) returns (count: nat)
      requires Keyed(rows)
      modifies this
      ensures Keyed(rows)
      ensures rows == ExpireAll(old(rows), now)
      ensures count == |TakenAt(old(rows), now)|
    {
      var todo := ExpiredAt(rows, now);
      ghost var before := rows;
      count := 0;
      SweptEnds(before, now);
      while todo != {}
        invariant todo <= before.Keys && (forall id | id in todo :: LeaseExpired(before[id], now))
        invariant rows == Swept(before, todo, now) && count == |TakenAt(before, now) - todo|
        decreases |todo|
      {
        var id :| id in todo;
        var hit := ExpireRow(id, now);
        SweptStep(before, todo, id, now);
        count := count + if hit then 1 else 0;
        todo := todo - {id};
      }
      assert TakenAt(before, now) - {} == TakenAt(before, now);
    }

    method ExpireRow(id: JobId, now: Time) returns (hit: bool)
      requires id in rows && rows[id].data.id == id && LeaseExpired(rows[id], now)
      modifies this
      ensures rows == old(rows)[id := ExpiredRow(old(rows)[id], now)]
      ensures hit == Expirable(old(rows)[id], now)
      ensures rows[id].data.id == id
    {
      var job := new Job.FromDict(rows[id].data);
      job.Reclaim(EXPIRED_FINAL, None, now);
      if rows[id].version != job.version {
        assert rows == rows[id := rows[id]];
        return false;
      }
      var nextVersion := job.version + 1;
      var payload := job.ToDict().(version := nextVersion);
      rows := rows[id := rows[id].(status := job.status, data := payload, version := nextVersion,
                                   leaseOwner := None, leaseExpiresAt := None)];
      return true;
    }

    /** Renews the lease of a held job without touching its version. */
    method TouchLease(id: JobId, worker: string, lease: int, now: Time) returns (result: Result<(), StoreError>)
      modifies this
      ensures result == if lease <= 0 then Failure(InvalidArgument)
                        else if HoldsLease(old(rows), id, worker) then Success(()) else Failure(Stale)
      ensures rows == if result.Success? then old(rows)[id := TouchedRow(old(rows)[id], lease, now)] else old(rows)
    {
      if lease <= 0 {
        return Failure(InvalidArgument);
      }
      if !HoldsLease(rows, id, worker) {
        return Failure(Stale);
      }
      var job := new Job.FromDict(rows[id].data);
      job.leaseExpiresAt := Some(now + lease as real);
      job.updatedAt := now;
      rows := rows[id := rows[id].(data := job.ToDict(), leaseExpiresAt := job.leaseExpiresAt)];
      return Success(());
    }

    /** Hands a held job back on graceful shutdown; anything else is left alone. */
    method ReleaseLease(id: JobId, worker: string, now: Time) returns (released: Option<JobData>)
      requires Keyed(rows)
      modifies this
      ensures Keyed(rows)
      ensures released.Some? <==> Releasable(old(rows), id, worker)
      ensures rows == if released.Some? then old(rows)[id := ReleasedRow(old(rows)[id], now)] else old(rows)
      ensures released.Some? ==> released.value == rows[id].data
    {
      if id !in rows {
        return None;
      }
      var job := new Job.FromDict(rows[id].data);
      if job.status !in {Running, Publishing} || job.leaseOwner != Some(worker) {
        return None;
      }
      job.Reclaim(RELEASED_FINAL, Some(RELEASED), now);
      var nextVersion := job.version + 1;
      if rows[id].version != job.version || rows[id].leaseOwner != Some(worker) {
        return None;
      }
      rows := rows[id := rows[id].(status := job.status, data := job.ToDict().(version := nextVersion),
                                   version := nextVersion, leaseOwner := None, leaseExpiresAt := None)];
      job.version := nextVersion;
      return Some(job.ToDict());
    }

    /** Operator reclaim: an ordinary optimistic save of the requeued copy. */
    method ForceRequeue(id: JobId, now: Time) returns (result: Result<JobData, StoreError>)
      requires Keyed(rows)
      modifies this
      ensures Keyed(rows)
      ensures result == Failure(NotFound) <==> id !in old(rows)
      ensures result.Failure? ==> rows == old(rows)
      ensures result.Success? <==>
                id in old(rows) && old(rows)[id].data.status.Active() && SaveCommits(old(rows), old(rows)[id].data)
      ensures result.Success? ==>
                var forced := RequeuedData(old(rows)[id].data, FORCED_FINAL, Some(FORCED), now);
                rows == old(rows)[id := SavedRow(old(rows)[id], forced, now)] && result.value == rows[id].data
    {
      var loaded := Load(id);
      if loaded.Failure? {
        return Failure(NotFound);
      }
      var job := new Job.FromDict(loaded.value);
      if job.status !in {Running, Publishing} {
        return Failure(Stale);
      }
      job.Reclaim(FORCED_FINAL, Some(FORCED), now);
      var ok := Save(job, now);
      if !ok {
        return Failure(Stale);
      }
      return Success(job.ToDict());
    }
  }
}
