/**
 The job store refines the job system: whatever is called on a store, and whatever clients do to their copies of jobs
 in between, its rows are the table after a run from the empty system, so every statement about runs holds of the rows.
 */
module JobRefinement {
  import opened Wrappers
  import opened JobModels
  import opened JobStore
  import opened JobSystem

  lemma RunMore(steps: seq<Step>, step: Step)
    ensures Run(Start, steps + [step]) == Do(Run(Start, steps), step)
  {
    RunAppend(Start, steps, step);
  }

  lemma {:induction false} RunAppend(s: System, steps: seq<Step>, step: Step)
    requires s.table.Keys == s.log.Keys
    ensures Run(s, steps + [step]) == Do(Run(s, steps), step)
    decreases |steps|
  {
    hide Do;
    if steps == [] {
      assert [step][1..] == [];
      assert Run(Do(s, step), []) == Do(s, step);
    } else {
      assert (steps + [step])[1..] == steps[1..] + [step];
      RunAppend(Do(s, steps[0]), steps[1..], step);
    }
  }

  /** A row of a run: its columns are those of its image. */
  lemma ImageOfRun(steps: seq<Step>, id: JobId)
    requires id in Run(Start, steps).table
    ensures var row := Run(Start, steps).table[id];
            row.data.id == id && row.version == row.data.version && row.status == row.data.status
  {
    hide Run, LogInv;
    RunKeepsInv(Start, steps);
    var s := Run(Start, steps);
    assert JobInv(id, s.table[id], s.log[id], s.now);
  }

  lemma ForcedSteps(s: System, client: ClientId, id: JobId)
    requires s.table.Keys == s.log.Keys && id in s.table && s.table[id].data.id == id
    requires s.table[id].version == s.table[id].data.version && s.table[id].data.status.Active()
    ensures var forced := RequeuedData(s.table[id].data, FORCED_FINAL, Some(FORCED), s.now);
            Do(Do(Do(s, DoLoad(client, id)), DoEdit(client, Force)), DoSave(client)).table ==
            s.table[id := SavedRow(s.table[id], forced, s.now)]
  {
    hide SavedRow;
  }

  /** A store with the run it has made. */
  class TrackedStore {
    const store: SqliteJobStore
    ghost var steps: seq<Step>

    ghost function Now(): System
      reads this
    {
      Run(Start, steps)
    }

    ghost predicate Valid()
      reads this, store
    {
      Now().table == store.rows
    }

    /** A client's object is the copy the system has of it. */
    ghost predicate Copied(client: ClientId, job: JobData)
      reads this
    {
      client in Now().copies && Now().copies[client].job == job
    }

    constructor ()
      ensures Valid() && steps == [] && fresh(store)
    {
      store := new SqliteJobStore();
      steps := [];
    }

    /** The clock is read, and the system catches up with it. */
    ghost method Read(now: Time)
      requires now >= Now().now
      modifies this
      ensures steps == old(steps) + [Tick(now - old(Now().now))]
      ensures Now() == old(Now()).(now := now)
    {
      RunMore(steps, Tick(now - Now().now));
      steps := steps + [Tick(now - Now().now)];
    }

    ghost method Take(step: Step)
      modifies this
      ensures steps == old(steps) + [step] && Now() == Do(old(Now()), step)
    {
      hide Do;
      RunMore(steps, step);
      steps := steps + [step];
    }

    /** The rows of a run carry their keys. */
    lemma Keys()
      requires Valid()
      ensures Keyed(store.rows)
    {
      hide Run;
      forall id | id in store.rows
        ensures store.rows[id].data.id == id
      {
        ImageOfRun(steps, id);
      }
    }

    /** What holds of all runs holds of the rows; mutual exclusion is an example. */
    lemma OneWorker(a: JobId, b: JobId)
      requires Valid() && a in store.rows && b in store.rows
      requires store.rows[a].status.Active() && store.rows[b].status.Active()
      requires store.rows[a].repositoryUrl == store.rows[b].repositoryUrl
      ensures a == b
    {
      MutualExclusion(steps, a, b);
    }

    /** The rows of a run have at most one for each key. */
    lemma KeyRow(a: JobId, b: JobId)
      requires Valid() && a in store.rows && b in store.rows
      requires store.rows[a].key.Some? && store.rows[a].key == store.rows[b].key
      ensures a == b
    {
      OneRowPerKey(steps, a, b);
    }

    /** A creation is a step exactly when the arguments are valid and neither the key nor the id is taken. */
    method Create(newId: JobId, spec: RunSpec, key: Option<string>, maxAttempts: int, now: Time)
      returns (result: Result<JobData, StoreError>)
      requires Valid() && now >= Now().now
      modifies this, store
      ensures Valid()
      ensures result == Failure(InvalidArgument) <==> !(1 <= maxAttempts <= 20) || (key.Some? && Blank(key.value))
      ensures result != Failure(InvalidArgument) ==> maxAttempts >= 1
      ensures steps == old(steps) + [Tick(now - old(Now().now))] +
              if result == Failure(InvalidArgument) || (key.Some? && KeyTaken(old(store.rows), key))
                 || newId in old(store.rows)
              then [] else [DoCreate(newId, key, spec, maxAttempts)]
      ensures |steps| == |old(steps)| + 2 ==> newId in store.rows && result == Success(store.rows[newId].data)
      ensures result != Failure(InvalidArgument) && key.Some? ==>
                forall id | id in old(store.rows) && old(store.rows[id].key) == key ::
                  result == if old(store.rows[id].data.spec) == spec then Success(old(store.rows[id].data))
                            else Failure(IdempotencyConflict)
    {
      hide Run;
      Read(now);
      result := store.Create(newId, spec, key, maxAttempts, now);
      if store.rows != old(store.rows) {
        Take(DoCreate(newId, key, spec, maxAttempts));
      } else if result != Failure(InvalidArgument) && key.Some? {
        forall a, b | a in store.rows && b in store.rows && store.rows[a].key == key == store.rows[b].key
          ensures a == b
        {
          KeyRow(a, b);
        }
      }
    }

    method Load(ghost client: ClientId, id: JobId) returns (result: Result<JobData, StoreError>)
      requires Valid()
      modifies this
      ensures Valid() && steps == old(steps) + [DoLoad(client, id)]
      ensures result.Success? <==> id in store.rows
      ensures result.Success? ==> Copied(client, result.value)
    {
      hide Run;
      result := store.Load(id);
      Take(DoLoad(client, id));
    }

    /** A move that service code makes on its object; only claims move a job to Running. */
    method Transition(ghost client: ClientId, job: Job, status: JobStatus, error: string, now: Time)
      returns (ok: bool)
      requires Valid() && now >= Now().now && Copied(client, job.ToDict()) && status != Running
      requires status == Queued && error != "" ==> CanRetry(job.ToDict())
      modifies this, job
      ensures Valid() && Copied(client, job.ToDict())
      ensures steps == old(steps) + [Tick(now - old(Now().now))] +
              [DoEdit(client, if status != Queued then Move(status, error) else if error != "" then Retry(error)
                              else Reenqueue)]
    {
      hide Run;
      Read(now);
      ok := TransitionJob(job, status, error, now);
      Take(DoEdit(client, if status != Queued then Move(status, error) else if error != "" then Retry(error)
                          else Reenqueue));
    }

    method Save(ghost client: ClientId, job: Job, now: Time) returns (ok: bool)
      requires Valid() && now >= Now().now && Copied(client, job.ToDict())
      modifies this, store, job
      ensures Valid() && Copied(client, job.ToDict())
      ensures steps == old(steps) + [Tick(now - old(Now().now))] + [DoSave(client)]
      ensures ok <==> store.rows != old(store.rows)
    {
      hide Run;
      Read(now);
      ok := store.Save(job, now);
      Take(DoSave(client));
    }

    method ClaimNext(ghost client: ClientId, worker: string, lease: int, now: Time)
      returns (result: Result<Option<JobData>, StoreError>)
      requires Valid() && now >= Now().now
      modifies this, store
      ensures Valid()
      ensures steps == old(steps) + [Tick(now - old(Now().now))] +
              if result.Success? && result.value.Some? then [DoClaim(client, result.value.value.id, worker, lease)]
              else []
      ensures result.Success? && result.value.Some? ==> Copied(client, result.value.value)
    {
      hide Run;
      Read(now);
      Keys();
      result := store.ClaimNext(worker, lease, now);
      if result.Success? && result.value.Some? {
        ImageOfRun(steps, result.value.value.id);
        Take(DoClaim(client, result.value.value.id, worker, lease));
      }
    }

    method Claim(ghost client: ClientId, id: JobId, worker: string, lease: int, now: Time)
      returns (result: Result<Option<JobData>, StoreError>)
      requires Valid() && now >= Now().now
      modifies this, store
      ensures Valid()
      ensures steps == old(steps) + [Tick(now - old(Now().now))] + [DoClaim(client, id, worker, lease)]
      ensures result.Success? && result.value.Some? ==> Copied(client, result.value.value)
    {
      hide Run;
      Read(now);
      Keys();
      if id in store.rows {
        ImageOfRun(steps, id);
      }
      result := store.Claim(id, worker, lease, now);
      Take(DoClaim(client, id, worker, lease));
    }

    method RequeueExpired(now: Time) returns (count: nat)
      requires Valid() && now >= Now().now
      modifies this, store
      ensures Valid() && steps == old(steps) + [Tick(now - old(Now().now))] + [DoExpire]
    {
      hide Run;
      Read(now);
      Keys();
      count := store.RequeueExpired(now);
      Take(DoExpire);
    }

    method TouchLease(id: JobId, worker: string, lease: int, now: Time) returns (result: Result<(), StoreError>)
      requires Valid() && now >= Now().now
      modifies this, store
      ensures Valid() && steps == old(steps) + [Tick(now - old(Now().now))] + [DoTouch(id, worker, lease)]
    {
      hide Run;
      Read(now);
      result := store.TouchLease(id, worker, lease, now);
      Take(DoTouch(id, worker, lease));
    }

    method ReleaseLease(id: JobId, worker: string, now: Time) returns (released: Option<JobData>)
      requires Valid() && now >= Now().now
      modifies this, store
      ensures Valid() && steps == old(steps) + [Tick(now - old(Now().now))] + [DoRelease(id, worker)]
    {
      hide Run;
      Read(now);
      Keys();
      released := store.ReleaseLease(id, worker, now);
      Take(DoRelease(id, worker));
    }

    /** The operator's reclaim is three steps of one client, which nothing comes between. */
    method ForceRequeue(ghost client: ClientId, id: JobId, now: Time) returns (result: Result<JobData, StoreError>)
      requires Valid() && now >= Now().now
      modifies this, store
      ensures Valid()
      ensures steps == old(steps) + [Tick(now - old(Now().now))] +
              if result.Success? then [DoLoad(client, id), DoEdit(client, Force), DoSave(client)] else []
    {
      hide Run, Do, SavedRow, RequeuedData;
      Read(now);
      Keys();
      if id in store.rows {
        ImageOfRun(steps, id);
        if store.rows[id].data.status.Active() {
          ForcedSteps(Now(), client, id);
        }
      }
      result := store.ForceRequeue(id, now);
      if result.Success? {
        Take(DoLoad(client, id));
        Take(DoEdit(client, Force));
        Take(DoSave(client));
      }
    }
  }
}
