/**
 What each transaction of the job store writes, field by field, in any state that keeps the invariant of all runs.
 Columns and image of a row agree there, so the image is enough.
 */
module JobLaws {
  import opened Wrappers
  import opened JobModels
  import opened JobStore
  import opened JobSystem
  import JobRefinement

  /** The table of the rows changed at most in one place. */
  ghost predicate OnlyRow(before: Table, after: Table, id: JobId) {
    id in before && id in after && after == before[id := after[id]]
  }

  /** The transition table, edge by edge; staying put is always allowed. */
  lemma EveryMove(from: JobStatus, to: JobStatus)
    ensures CanMove(from, to) <==>
            from == to || (from, to) in
            {(Queued, Running), (Queued, Cancelled),
             (Running, Queued), (Running, Paused), (Running, Publishing), (Running, Completed), (Running, Failed),
             (Running, Cancelled),
             (Paused, Queued), (Paused, Failed), (Paused, Cancelled),
             (Publishing, Queued), (Publishing, Completed), (Publishing, Failed), (Publishing, Paused),
             (Failed, Queued)}
  {
  }

  /** What a move that changes the status writes. */
  lemma MoveWrites(job: JobData, to: JobStatus, error: string, now: Time)
    requires job.status != to
    ensures Moved(job, to, error, now) ==
            job.(status := to, updatedAt := now,
                 lastError := if error != "" then error
                              else if to in {Paused, Failed, Cancelled, Queued} then job.lastError else "",
                 leaseOwner := if to in {Running, Publishing} then job.leaseOwner else None,
                 leaseExpiresAt := if to in {Running, Publishing} then job.leaseExpiresAt else None)
  {
  }

  /** The columns of a row are those of its image, but for the deadline, which is set with it. */
  lemma RowOfRun(s: System, id: JobId)
    requires Inv(s) && id in s.table
    ensures var row := s.table[id];
            && row.data.id == id && row.status == row.data.status && row.version == row.data.version
            && row.notBefore == row.data.notBefore && row.leaseOwner == row.data.leaseOwner
            && row.repositoryUrl == row.data.spec.repositoryUrl && row.key == row.data.key
            && (row.status.Active() <==> row.leaseExpiresAt.Some?)
            && (row.status.Active() <==> row.leaseOwner.Some?)
  {
    hide LogInv;
    assert JobInv(id, s.table[id], s.log[id], s.now);
  }

  predicate Idle(s: System, id: JobId)
    requires id in s.table
  {
    forall o | o in s.table && o != id && s.table[o].status in {Running, Publishing} ::
      s.table[o].repositoryUrl != s.table[id].repositoryUrl
  }

  lemma ClaimableIs(s: System, id: JobId)
    ensures Claimable(s.table, id, s.now) <==>
            id in s.table && s.table[id].status == Queued && s.table[id].notBefore <= s.now && Idle(s, id)
  {
  }

  /** A claim is granted to a due queued job whose repository has no other active job, and to nothing else. */
  lemma ClaimWrites(s: System, client: ClientId, id: JobId, worker: string, lease: int)
    requires Inv(s)
    ensures var s' := Do(s, DoClaim(client, id, worker, lease));
            if && lease > 0 && !Blank(worker) && id in s.table && s.table[id].status == Queued
               && s.table[id].notBefore <= s.now
               && Idle(s, id)
            then
              && OnlyRow(s.table, s'.table, id)
              && s'.table[id].status == Running && s'.table[id].leaseOwner == Some(worker)
              && s'.table[id].leaseExpiresAt == Some(s.now + lease as real)
              && s'.table[id].data == s.table[id].data.(status := Running, attempt := s.table[id].data.attempt + 1,
                   lastError := "", leaseOwner := Some(worker), leaseExpiresAt := Some(s.now + lease as real),
                   updatedAt := s.now, version := s.table[id].data.version + 1)
            else s'.table == s.table
  {
    if id in s.table {
      RowOfRun(s, id);
    }
    Together(s);
    ClaimableIs(s, id);
    hide Inv, Blank, Idle, Claimable;
  }

  /** A sweep takes exactly the active jobs whose deadline has passed, and spares the others. */
  lemma SweepWrites(s: System, id: JobId)
    requires Inv(s) && id in s.table
    ensures var row, row' := s.table[id], Do(s, DoExpire).table[id];
            if row.status in {Running, Publishing} && row.leaseExpiresAt.Some?
               && row.leaseExpiresAt.value <= s.now
            then
              && row'.status == (if row.data.attempt < row.data.maxAttempts then Queued else Failed)
              && row'.leaseOwner == None && row'.leaseExpiresAt == None && row'.version == row.version + 1
              && row'.data == row.data.(status := row'.status, leaseOwner := None, leaseExpiresAt := None,
                   updatedAt := s.now, version := row.data.version + 1,
                   lastError := if row'.status == Failed then "worker lease expired after final attempt"
                                else row.data.lastError)
            else row' == row
  {
    RowOfRun(s, id);
    hide Inv;
  }

  /** A worker gives back exactly the job that it holds. */
  lemma ReleaseWrites(s: System, id: JobId, worker: string)
    requires Inv(s)
    ensures var s' := Do(s, DoRelease(id, worker));
            if id in s.table && s.table[id].status in {Running, Publishing} && s.table[id].leaseOwner == Some(worker)
            then
              var row, row' := s.table[id], s'.table[id];
              && OnlyRow(s.table, s'.table, id)
              && row'.status == (if row.data.attempt < row.data.maxAttempts then Queued else Failed)
              && row'.leaseOwner == None && row'.leaseExpiresAt == None && row'.version == row.version + 1
              && row'.data == row.data.(status := row'.status, leaseOwner := None, leaseExpiresAt := None,
                   updatedAt := s.now, version := row.data.version + 1,
                   lastError := if row'.status == Failed then "worker released lease after final attempt"
                                else "worker released lease on shutdown")
            else s'.table == s.table
  {
    if id in s.table {
      RowOfRun(s, id);
    }
    hide Inv;
  }

  /** A heartbeat moves the deadline of the job its worker holds, in both places, and nothing else. */
  lemma TouchWrites(s: System, id: JobId, worker: string, lease: int)
    requires Inv(s)
    ensures var s' := Do(s, DoTouch(id, worker, lease));
            var deadline := Some(s.now + lease as real);
            if && lease > 0 && id in s.table && s.table[id].status in {Running, Publishing}
               && s.table[id].leaseOwner == Some(worker)
            then
              s'.table == s.table[id := s.table[id].(leaseExpiresAt := deadline,
                data := s.table[id].data.(leaseExpiresAt := deadline, updatedAt := s.now))]
            else s'.table == s.table
  {
    Together(s);
    hide Inv;
  }

  /** An operator takes any active job from its worker, whoever holds it. */
  lemma ForceWrites(s: System, client: ClientId, id: JobId)
    requires Inv(s)
    ensures var t := Do(Do(Do(s, DoLoad(client, id)), DoEdit(client, Force)), DoSave(client)).table;
            id in s.table && s.table[id].status in {Running, Publishing} ==>
              var row := s.table[id];
              && OnlyRow(s.table, t, id)
              && t[id].status == (if row.data.attempt < row.data.maxAttempts then Queued else Failed)
              && t[id].leaseOwner == None && t[id].leaseExpiresAt == None && t[id].version == row.version + 1
              && t[id].data == row.data.(status := t[id].status, leaseOwner := None, leaseExpiresAt := None,
                   updatedAt := s.now, version := row.data.version + 1,
                   lastError := if t[id].status == Failed then "operator requeue after final attempt"
                                else "operator requeue cleared worker lease")
  {
    Together(s);
    if id in s.table {
      RowOfRun(s, id);
      hide Inv, Do;
      if s.table[id].status.Active() {
        JobRefinement.ForcedSteps(s, client, id);
      }
    }
  }

  /** A save that lands writes the copy, and leaves the lease columns of an active row to the heartbeats. */
  lemma SaveWrites(s: System, client: ClientId)
    requires Inv(s) && client in s.copies
    ensures var job, t := s.copies[client].job, Do(s, DoSave(client)).table;
            && job.id in s.table
            && if s.table[job.id].version == job.version then
                 && OnlyRow(s.table, t, job.id)
                 && t[job.id].data == job.(version := job.version + 1, updatedAt := s.now)
                 && t[job.id].status == job.status && t[job.id].notBefore == job.notBefore
                 && t[job.id].version == job.version + 1
                 && t[job.id].leaseOwner ==
                    (if job.status in {Running, Publishing} then s.table[job.id].leaseOwner else job.leaseOwner)
                 && t[job.id].leaseExpiresAt ==
                    (if job.status in {Running, Publishing} then s.table[job.id].leaseExpiresAt else job.leaseExpiresAt)
               else t == s.table
  {
    assert Held(s.copies[client], s.log);
    hide Inv, CopyInv;
  }
}
