/**
 The job table as a concurrent system.

 Workers, API routes, operators, heartbeats and the merge hook share one table.  Each holds in-memory
 copies that may be stale, and each SQL transaction is one atomic step.  `log` records every commit, so
 that "what happened to this row since the copy was read" can be said; no step reads it.
 */
module JobSystem {
  import opened Wrappers
  import opened JobModels
  import opened JobStore

  type ClientId = nat

  /**
   What a commit was.  A save also records where in the log its copy was read, the moves made on the copy
   since, and how many of them were explicit re-enqueues.
   */
  datatype Kind =
    | Created
    | Saved(at: nat, trail: seq<JobStatus>, requeues: nat)
    | Claimed(lease: int)
    | Touched(lease: int)
    | Expired
    | Released

  datatype Entry = Entry(kind: Kind, data: JobData)

  /** A copy: the edited job, the image it was read (or last saved) as, and the length of the log then. */
  datatype Copy = Copy(job: JobData, base: JobData, at: nat, trail: seq<JobStatus>, requeues: nat)

  datatype System = System(table: Table, log: map<JobId, seq<Entry>>, copies: map<ClientId, Copy>, now: Time)

  /** The edits that service code makes on a copy. */
  datatype Edit =
    | Fill(request: string, details: string, notBefore: Time)  // session, workspace, result, due time
    | Move(status: JobStatus, error: string)                   // a validated move that ends or suspends the job
    | Retry(error: string)                                     // back to the queue after a transient failure
    | Reenqueue                                                // SqliteJobQueue.enqueue
    | Force                                                    // SqliteJobStore.force_requeue

  datatype Step =
    | Tick(elapsed: Time)
    | DoCreate(id: JobId, key: Option<string>, spec: RunSpec, maxAttempts: nat)
    | DoLoad(client: ClientId, id: JobId)
    | DoForget(client: ClientId)
    | DoEdit(client: ClientId, edit: Edit)
    | DoSave(client: ClientId)
    | DoClaim(client: ClientId, id: JobId, worker: string, lease: int)
    | DoTouch(id: JobId, worker: string, lease: int)
    | DoExpire
    | DoRelease(id: JobId, worker: string)

  const Start := System(map[], map[], map[], 0.0)

  function Last<T>(s: seq<T>): T
    requires s != []
  {
    s[|s| - 1]
  }

  /** A copy just read from, or just written to, the row whose log is `log`. */
  function Fresh(data: JobData, log: seq<Entry>): Copy {
    Copy(data, data, |log|, [data.status], 0)
  }

  function Edited(copy: Copy, edit: Edit, now: Time): (edited: Copy)
    ensures edited.at == copy.at && edited.base == copy.base && edited.job.id == copy.job.id
  {
    var job := copy.job;
    match edit
    case Fill(request, details, notBefore) =>
      copy.(job := job.(spec := job.spec.(request := request), details := details, notBefore := notBefore))
    case Move(status, error) =>
      if status in Transitions(job.status) && !status.Running? && !status.Queued? then
        copy.(job := Moved(job, status, error, now), trail := copy.trail + [status])
      else copy
    case Retry(error) =>
      if Queued in Transitions(job.status) && CanRetry(job) then
        copy.(job := Moved(job, Queued, error, now), trail := copy.trail + [Queued])
      else copy
    case Reenqueue =>
      if Queued in Transitions(job.status) then
        copy.(job := Moved(job, Queued, "", now), trail := copy.trail + [Queued], requeues := copy.requeues + 1)
      else copy
    case Force =>
      if job.status.Active() then
        copy.(job := RequeuedData(job, FORCED_FINAL, Some(FORCED), now), trail := copy.trail + [Reclaimed(job)])
      else copy
  }

  function Commit(s: System, id: JobId, row: Row, kind: Kind): System
    requires id in s.log
  {
    s.(table := s.table[id := row], log := s.log[id := s.log[id] + [Entry(kind, row.data)]])
  }

  function SaveStep(s: System, client: ClientId): System
    requires client in s.copies && s.table.Keys == s.log.Keys
  {
    var copy := s.copies[client];
    var job := copy.job;
    if SaveCommits(s.table, job) then
      var s' := Commit(s, job.id, SavedRow(s.table[job.id], job, s.now), Saved(copy.at, copy.trail, copy.requeues));
      s'.(copies := s.copies[client := Fresh(SavedData(job, s.now), s'.log[job.id])])
    else
      s.(copies := s.copies[client := copy.(job := job.(updatedAt := s.now))])
  }

  function ClaimStep(s: System, client: ClientId, id: JobId, worker: string, lease: int): System
    requires Claimable(s.table, id, s.now) && s.table.Keys == s.log.Keys
  {
    if s.table[id].data.version == s.table[id].version then
      var s' := Commit(s, id, ClaimedRow(s.table[id], worker, lease, s.now), Claimed(lease));
      s'.(copies := s.copies[client := Fresh(s'.table[id].data, s'.log[id])])
    else s
  }

  function ExpireStep(s: System): System
    requires s.table.Keys == s.log.Keys
  {
    s.(table := ExpireAll(s.table, s.now),
       log := map id | id in s.log ::
                if Expirable(s.table[id], s.now) then
                  s.log[id] + [Entry(Expired, ExpiredRow(s.table[id], s.now).data)]
                else s.log[id])
  }

  /** One step; a step whose guard fails changes nothing. */
  function Do(s: System, step: Step): (s': System)
    requires s.table.Keys == s.log.Keys
    ensures s'.table.Keys == s'.log.Keys
  {
    match step
    case Tick(elapsed) => if elapsed >= 0.0 then s.(now := s.now + elapsed) else s
    case DoCreate(id, key, spec, maxAttempts) =>
      if 1 <= maxAttempts <= 20 && id !in s.table && (key.None? || forall o | o in s.table :: s.table[o].key != key)
      then
        var job := NewJob(id, key, spec, maxAttempts, s.now);
        s.(table := s.table[id := Inserted(job)], log := s.log[id := [Entry(Created, job)]])
      else s
    case DoLoad(client, id) =>
      if id in s.table then s.(copies := s.copies[client := Fresh(s.table[id].data, s.log[id])]) else s
    case DoForget(client) => s.(copies := s.copies - {client})
    case DoEdit(client, edit) =>
      if client in s.copies then s.(copies := s.copies[client := Edited(s.copies[client], edit, s.now)]) else s
    case DoSave(client) => if client in s.copies then SaveStep(s, client) else s
    case DoClaim(client, id, worker, lease) =>
      if !Blank(worker) && lease > 0 && Claimable(s.table, id, s.now) then ClaimStep(s, client, id, worker, lease)
      else s
    case DoTouch(id, worker, lease) =>
      if lease > 0 && HoldsLease(s.table, id, worker) then
        Commit(s, id, TouchedRow(s.table[id], lease, s.now), Touched(lease))
      else s
    case DoExpire => ExpireStep(s)
    case DoRelease(id, worker) =>
      if Releasable(s.table, id, worker) then Commit(s, id, ReleasedRow(s.table[id], s.now), Released) else s
  }

  function Run(s: System, steps: seq<Step>): (end: System)
    requires s.table.Keys == s.log.Keys
    ensures end.table.Keys == end.log.Keys
    decreases |steps|
  {
    if steps == [] then s else Run(Do(s, steps[0]), steps[1..])
  }

  // ---------------------------------------------------------------- the invariant

  predicate SameIdentity(a: JobData, b: JobData) {
    && a.id == b.id && a.key == b.key && a.maxAttempts == b.maxAttempts && a.createdAt == b.createdAt
    && a.spec.repositoryUrl == b.spec.repositoryUrl
  }

  /** Equal but for the deadline and the time stamp that a heartbeat writes. */
  predicate SameButLease(a: JobData, b: JobData) {
    b == a.(leaseExpiresAt := b.leaseExpiresAt, updatedAt := b.updatedAt)
  }

  /** A job is active exactly when it names an owner and a deadline. */
  predicate LeaseShape(status: JobStatus, owner: Option<string>, deadline: Option<Time>) {
    (status.Active() <==> owner.Some?) && (status.Active() <==> deadline.Some?)
  }

  predicate IsPath(trail: seq<JobStatus>) {
    forall i | 0 < i < |trail| :: trail[i] in Transitions(trail[i - 1])
  }

  /** The moves recorded since an image was read lead from its status to `status`, and never to Running. */
  predicate TrailFrom(base: JobData, status: JobStatus, trail: seq<JobStatus>) {
    trail != [] && trail[0] == base.status && Last(trail) == status && IsPath(trail) && Running !in trail[1..]
  }

  /** A job can reach the queue only if it was there, has an attempt left or was explicitly enqueued. */
  predicate QueueRule(base: JobData, job: JobData, requeues: nat) {
    job.status.Queued? && !base.status.Queued? ==> CanRetry(job) || requeues > 0
  }

  /** How one commit follows the image before it. */
  predicate Follows(prev: JobData, e: Entry) {
    var job := e.data;
    && SameIdentity(prev, job)
    && LeaseShape(job.status, job.leaseOwner, job.leaseExpiresAt)
    && job.version == prev.version + (if e.kind.Touched? then 0 else 1)
    && job.attempt == prev.attempt + (if e.kind.Claimed? then 1 else 0)
    && prev.updatedAt <= job.updatedAt
    && match e.kind
       case Created => false
       case Touched(lease) =>
         prev.status.Active() && SameButLease(prev, job) && job.leaseExpiresAt == Some(job.updatedAt + lease as real)
       case Claimed(lease) =>
         prev.status.Queued? && job.status.Running? && job.leaseExpiresAt == Some(job.updatedAt + lease as real)
       case Expired => prev.status.Active() && job.status == Reclaimed(prev)
       case Released => prev.status.Active() && job.status == Reclaimed(prev)
       case Saved(_, trail, requeues) =>
         && TrailFrom(prev, job.status, trail)
         && QueueRule(prev, job, requeues)
         && (job.status.Active() ==> prev.status.Active() && job.leaseOwner == prev.leaseOwner)
  }

  predicate Origin(e: Entry) {
    && e.kind.Created? && e.data.status.Queued? && e.data.attempt == 0 && e.data.version == 0
    && e.data.maxAttempts >= 1 && e.data.leaseOwner.None? && e.data.leaseExpiresAt.None?
  }

  /** A save was made from a copy read at `at`, with nothing but heartbeats in between. */
  predicate ReadAt(log: seq<Entry>, k: nat)
    requires k < |log|
  {
    log[k].kind.Saved? ==>
      var at := log[k].kind.at;
      && 0 < at <= k
      && (forall j | at <= j < k :: log[j].kind.Touched?)
      && (log[k].data.status.Active() ==> log[k].data.leaseExpiresAt == log[at - 1].data.leaseExpiresAt)
  }

  predicate FollowsAt(log: seq<Entry>, k: nat)
    requires 0 < k < |log|
  {
    Follows(log[k - 1].data, log[k]) && ReadAt(log, k)
  }

  predicate LogInv(log: seq<Entry>) {
    log != [] && Origin(log[0]) && forall k | 0 < k < |log| :: FollowsAt(log, k)
  }

  /** The deadline a sweep goes by: the one written by the last claim or heartbeat, while the job is active. */
  function Deadline(log: seq<Entry>): Option<Time>
    requires log != []
  {
    var e := Last(log);
    if !e.data.status.Active() then None
    else if e.kind.Claimed? || e.kind.Touched? || |log| == 1 then e.data.leaseExpiresAt
    else Deadline(log[..|log| - 1])
  }

  /** The denormalised columns agree with the JSON image, which is the last commit. */
  predicate RowInv(id: JobId, row: Row, log: seq<Entry>)
    requires log != []
  {
    && row.data == Last(log).data && row.data.id == id
    && row.status == row.data.status && row.version == row.data.version && row.notBefore == row.data.notBefore
    && row.leaseOwner == row.data.leaseOwner && row.repositoryUrl == row.data.spec.repositoryUrl
    && row.key == row.data.key && row.createdAt == row.data.createdAt
    && LeaseShape(row.status, row.leaseOwner, row.leaseExpiresAt) && row.leaseExpiresAt == Deadline(log)
  }

  /** A copy comes from a prefix of the log, and its edits left everything the store owns alone. */
  predicate CopyInv(copy: Copy, log: seq<Entry>) {
    var base, job := copy.base, copy.job;
    && 0 < copy.at <= |log| && log[copy.at - 1].data == base
    && SameIdentity(base, job) && job.version == base.version && job.attempt == base.attempt
    && TrailFrom(base, job.status, copy.trail)
    && QueueRule(base, job, copy.requeues)
    && LeaseShape(job.status, job.leaseOwner, job.leaseExpiresAt)
    && (job.status.Active() ==>
          base.status.Active() && job.leaseOwner == base.leaseOwner && job.leaseExpiresAt == base.leaseExpiresAt)
  }

  predicate Exclusive(t: Table) {
    forall a, b | a in t && b in t && t[a].status.Active() && t[b].status.Active() &&
                  t[a].repositoryUrl == t[b].repositoryUrl :: a == b
  }

  predicate JobInv(id: JobId, row: Row, log: seq<Entry>, now: Time) {
    LogInv(log) && RowInv(id, row, log) && Last(log).data.updatedAt <= now
  }

  ghost predicate Held(copy: Copy, logs: map<JobId, seq<Entry>>) {
    copy.job.id in logs && CopyInv(copy, logs[copy.job.id])
  }

  ghost predicate Inv(s: System) {
    && s.table.Keys == s.log.Keys
    && (forall id | id in s.table :: JobInv(id, s.table[id], s.log[id], s.now))
    && (forall c | c in s.copies :: Held(s.copies[c], s.log))
    && Exclusive(s.table)
  }

  // ---------------------------------------------------------------- facts about one log

  /** Nothing but heartbeats has committed from position `at` on. */
  predicate OnlyTouched(log: seq<Entry>, at: nat) {
    forall k | at <= k < |log| :: log[k].kind.Touched?
  }

  /** Versions tell commits apart, heartbeats excepted. */
  lemma {:induction false} VersionsTell(log: seq<Entry>, i: nat, j: nat)
    requires LogInv(log) && i <= j < |log|
    ensures log[i].data.version <= log[j].data.version
    ensures log[i].data.version == log[j].data.version <==> forall k | i < k <= j :: log[k].kind.Touched?
    ensures log[i].data.version == log[j].data.version ==> SameButLease(log[i].data, log[j].data)
    decreases j
  {
    if i < j {
      VersionsTell(log, i, j - 1);
      assert FollowsAt(log, j);
    }
  }

  lemma PrefixInv(log: seq<Entry>)
    requires LogInv(log) && |log| > 1
    ensures LogInv(log[..|log| - 1]) && Follows(Last(log[..|log| - 1]).data, Last(log))
  {
    var front := log[..|log| - 1];
    assert FollowsAt(log, |log| - 1);
    forall k | 0 < k < |front|
      ensures FollowsAt(front, k)
    {
      assert FollowsAt(log, k);
    }
  }

  lemma {:induction false} SameJob(log: seq<Entry>, k: nat)
    requires LogInv(log) && k < |log|
    ensures SameIdentity(log[0].data, log[k].data)
  {
    if k > 0 {
      SameJob(log, k - 1);
      assert FollowsAt(log, k);
    }
  }

  /** A save is accepted exactly when only heartbeats committed since the copy was read. */
  lemma CommitGuard(row: Row, copy: Copy, log: seq<Entry>)
    requires LogInv(log) && RowInv(copy.job.id, row, log) && CopyInv(copy, log)
    ensures row.version == copy.job.version <==> OnlyTouched(log, copy.at)
    ensures row.version == copy.job.version ==> SameButLease(copy.base, row.data)
  {
    VersionsTell(log, copy.at - 1, |log| - 1);
  }

  // ---------------------------------------------------------------- the invariant is kept

  /** A commit that may come next in a log. */
  predicate MayAppend(log: seq<Entry>, e: Entry) {
    log != [] && FollowsAt(log + [e], |log|)
  }

  lemma LogGrowsBy(log: seq<Entry>, e: Entry)
    requires LogInv(log) && MayAppend(log, e)
    ensures LogInv(log + [e])
  {
    forall k | 0 < k < |log|
      ensures FollowsAt(log + [e], k)
    {
      assert FollowsAt(log, k);
    }
  }

  lemma CopyOutlives(copy: Copy, log: seq<Entry>, log': seq<Entry>)
    requires CopyInv(copy, log) && log <= log'
    ensures CopyInv(copy, log')
  {
    assert log'[copy.at - 1] == log[copy.at - 1];
  }

  /** The row is as it was, or has gained one commit that follows. */
  ghost predicate Advanced(id: JobId, row: Row, log: seq<Entry>, row': Row, log': seq<Entry>, now: Time) {
    || (row' == row && log' == log)
    || exists e :: log' == log + [e] && MayAppend(log, e) && RowInv(id, row', log') && e.data.updatedAt <= now
  }

  ghost predicate Extends(s: System, s': System) {
    && s.table.Keys == s.log.Keys == s'.table.Keys == s'.log.Keys
    && forall id | id in s.table :: Advanced(id, s.table[id], s.log[id], s'.table[id], s'.log[id], s'.now)
  }

  /** No row disappears, and every row stays or advances. */
  ghost predicate Grows(s: System, s': System) {
    forall id | id in s.table && id in s.log :: id in s'.table && id in s'.log
      && Advanced(id, s.table[id], s.log[id], s'.table[id], s'.log[id], s'.now)
  }

  lemma JobAdvances(id: JobId, row: Row, log: seq<Entry>, now: Time, row': Row, log': seq<Entry>, now': Time)
    requires JobInv(id, row, log, now) && Advanced(id, row, log, row', log', now') && now <= now'
    ensures JobInv(id, row', log', now') && log <= log'
  {
    if log' != log {
      var e :| log' == log + [e] && MayAppend(log, e) && RowInv(id, row', log') && e.data.updatedAt <= now';
      LogGrowsBy(log, e);
    }
  }

  lemma ExtendKeepsInv(s: System, s': System)
    requires Inv(s) && Extends(s, s') && Exclusive(s'.table) && s.now <= s'.now
    requires forall c | c in s'.copies :: (c in s.copies && s.copies[c] == s'.copies[c]) || Held(s'.copies[c], s'.log)
    ensures Inv(s')
  {
    hide Advanced, LogInv, RowInv, CopyInv, JobInv, Exclusive;
    forall id | id in s'.table
      ensures JobInv(id, s'.table[id], s'.log[id], s'.now) && s.log[id] <= s'.log[id]
    {
      JobAdvances(id, s.table[id], s.log[id], s.now, s'.table[id], s'.log[id], s'.now);
    }
    forall c | c in s'.copies
      ensures Held(s'.copies[c], s'.log)
    {
      if c in s.copies && s.copies[c] == s'.copies[c] {
        var id := s.copies[c].job.id;
        assert Held(s.copies[c], s.log);
        CopyOutlives(s.copies[c], s.log[id], s'.log[id]);
      }
    }
  }

  lemma StaysExclusive(t: Table, id: JobId, row: Row)
    requires Exclusive(t) && id in t && row.repositoryUrl == t[id].repositoryUrl
    requires row.status.Active() ==> t[id].status.Active() || RepositoryIdle(t, id)
    ensures Exclusive(t[id := row])
  {
  }

  lemma CommitExtends(s: System, id: JobId, row: Row, kind: Kind)
    requires s.table.Keys == s.log.Keys && id in s.table && row.data.updatedAt == s.now
    requires MayAppend(s.log[id], Entry(kind, row.data)) && RowInv(id, row, s.log[id] + [Entry(kind, row.data)])
    ensures Extends(s, Commit(s, id, row, kind))
  {
    hide MayAppend, RowInv, Advanced;
    var s' := Commit(s, id, row, kind);
    Advances(id, s.table[id], s.log[id], row, Entry(kind, row.data), s.now);
    forall o | o in s.table
      ensures Advanced(o, s.table[o], s.log[o], s'.table[o], s'.log[o], s.now)
    {
      NoAdvance(o, s.table[o], s.log[o], s.now);
    }
  }

  /** Committing one row that does not become active keeps the repositories exclusive. */
  lemma CommitKeepsInv(s: System, id: JobId, row: Row, kind: Kind)
    requires Inv(s) && id in s.table && row.data.updatedAt == s.now
    requires MayAppend(s.log[id], Entry(kind, row.data)) && RowInv(id, row, s.log[id] + [Entry(kind, row.data)])
    requires row.repositoryUrl == s.table[id].repositoryUrl
    requires row.status.Active() ==> s.table[id].status.Active() || RepositoryIdle(s.table, id)
    ensures Inv(Commit(s, id, row, kind)) && Extends(s, Commit(s, id, row, kind))
  {
    hide MayAppend, RowInv, JobInv, Held, Exclusive, Extends;
    StaysExclusive(s.table, id, row);
    CommitExtends(s, id, row, kind);
    hide Inv, RepositoryIdle;
    ExtendKeepsInv(s, Commit(s, id, row, kind));
  }

  lemma Advances(id: JobId, row: Row, log: seq<Entry>, row': Row, e: Entry, now: Time)
    requires MayAppend(log, e) && RowInv(id, row', log + [e]) && e.data.updatedAt <= now
    ensures Advanced(id, row, log, row', log + [e], now)
  {
  }

  lemma NoAdvance(id: JobId, row: Row, log: seq<Entry>, now: Time)
    ensures Advanced(id, row, log, row, log, now)
  {
  }

  /** Steps that leave the table alone need only keep the copies sound. */
  lemma SameTable(s: System, s': System)
    requires Inv(s) && s'.table == s.table && s'.log == s.log && s.now <= s'.now
    requires forall c | c in s'.copies :: (c in s.copies && s.copies[c] == s'.copies[c]) || Held(s'.copies[c], s'.log)
    ensures Inv(s') && Grows(s, s')
  {
    hide LogInv, RowInv, CopyInv, JobInv, Exclusive, MayAppend, Held;
    assert Extends(s, s');
    ExtendKeepsInv(s, s');
  }

  lemma CopyStep(s: System, client: ClientId, copy: Copy)
    requires Inv(s) && Held(copy, s.log)
    ensures var s' := s.(copies := s.copies[client := copy]); Inv(s') && Grows(s, s')
  {
    hide Held, Inv;
    SameTable(s, s.(copies := s.copies[client := copy]));
  }

  lemma FreshCopyInv(id: JobId, row: Row, log: seq<Entry>)
    requires LogInv(log) && RowInv(id, row, log)
    ensures CopyInv(Fresh(row.data, log), log)
  {
    assert |log| > 1 ==> FollowsAt(log, |log| - 1);
    hide ReadAt, Deadline;
  }

  lemma FreshCopy(s: System, client: ClientId, id: JobId)
    requires Inv(s) && id in s.table
    ensures var s' := s.(copies := s.copies[client := Fresh(s.table[id].data, s.log[id])]);
            Inv(s') && Grows(s, s')
  {
    assert JobInv(id, s.table[id], s.log[id], s.now);
    FreshCopyInv(id, s.table[id], s.log[id]);
    assert s.table[id].data.id == id;
    hide LogInv, RowInv, CopyInv, JobInv, Exclusive;
    CopyStep(s, client, Fresh(s.table[id].data, s.log[id]));
  }

  lemma TrailExtends(base: JobData, status: JobStatus, trail: seq<JobStatus>, next: JobStatus)
    requires TrailFrom(base, status, trail) && next in Transitions(status) && !next.Running?
    ensures TrailFrom(base, next, trail + [next])
  {
    assert (trail + [next])[1..] == trail[1..] + [next];
  }

  lemma EditKeepsInv(copy: Copy, edit: Edit, now: Time, log: seq<Entry>)
    requires CopyInv(copy, log)
    ensures CopyInv(Edited(copy, edit, now), log)
  {
    var next := Last(Edited(copy, edit, now).trail);
    if next in Transitions(copy.job.status) && !next.Running? {
      TrailExtends(copy.base, copy.job.status, copy.trail, next);
    }
    hide TrailFrom;
  }

  /** What each writer appends follows, and leaves the columns in agreement. */
  lemma AppendedRow(id: JobId, row: Row, log: seq<Entry>, row': Row, kind: Kind, now: Time)
    requires JobInv(id, row, log, now) && row'.data.updatedAt == now
    requires Follows(row.data, Entry(kind, row'.data)) && ReadAt(log + [Entry(kind, row'.data)], |log|)
    requires row'.data.id == id && row'.status == row'.data.status && row'.version == row'.data.version
    requires row'.notBefore == row'.data.notBefore && row'.leaseOwner == row'.data.leaseOwner
    requires row'.repositoryUrl == row.repositoryUrl && row'.key == row.key && row'.createdAt == row.createdAt
    requires if !row'.status.Active() then row'.leaseExpiresAt.None?
             else if kind.Claimed? || kind.Touched? then row'.leaseExpiresAt == row'.data.leaseExpiresAt
             else row'.leaseExpiresAt == row.leaseExpiresAt && row.leaseExpiresAt.Some?
    ensures MayAppend(log, Entry(kind, row'.data)) && RowInv(id, row', log + [Entry(kind, row'.data)])
  {
    var log' := log + [Entry(kind, row'.data)];
    assert log'[..|log'| - 1] == log;
    assert log'[|log| - 1].data == row.data;
    hide LogInv, ReadAt, TrailFrom;
  }

  lemma SaveFollows(id: JobId, row: Row, copy: Copy, log: seq<Entry>, now: Time)
    requires JobInv(id, row, log, now) && CopyInv(copy, log)
    requires copy.job.id == id && row.version == copy.job.version
    ensures copy.job.status.Active() ==> row.status.Active()
    ensures var row' := SavedRow(row, copy.job, now); var e :=
            Entry(Saved(copy.at, copy.trail, copy.requeues), row'.data);
            MayAppend(log, e) && RowInv(id, row', log + [e])
  {
    CommitGuard(row, copy, log);
    var row' := SavedRow(row, copy.job, now);
    var kind := Saved(copy.at, copy.trail, copy.requeues);
    assert ReadAt(log + [Entry(kind, row'.data)], |log|) by {
      assert log[copy.at - 1].data == copy.base;
    }
    assert Follows(row.data, Entry(kind, row'.data)) by {
      hide LogInv, ReadAt, Deadline;
    }
    hide LogInv, ReadAt, Follows, TrailFrom, Deadline;
    AppendedRow(id, row, log, row', kind, now);
  }

  lemma StampedCopy(copy: Copy, log: seq<Entry>, now: Time)
    requires CopyInv(copy, log)
    ensures CopyInv(copy.(job := copy.job.(updatedAt := now)), log)
  {
    hide TrailFrom;
  }

  lemma SaveKeepsInv(s: System, client: ClientId)
    requires Inv(s) && client in s.copies
    ensures Inv(SaveStep(s, client)) && Grows(s, SaveStep(s, client))
  {
    var copy := s.copies[client];
    var job := copy.job;
    var id := job.id;
    assert Held(copy, s.log) && JobInv(id, s.table[id], s.log[id], s.now);
    if SaveCommits(s.table, job) {
      SaveFollows(id, s.table[id], copy, s.log[id], s.now);
      var row := SavedRow(s.table[id], job, s.now);
      var kind := Saved(copy.at, copy.trail, copy.requeues);
      hide LogInv, RowInv, CopyInv, JobInv, Exclusive, MayAppend, Held, Advanced;
      CommitKeepsInv(s, id, row, kind);
      FreshCopy(Commit(s, id, row, kind), client, id);
    } else {
      StampedCopy(copy, s.log[id], s.now);
      hide LogInv, RowInv, CopyInv, JobInv, Exclusive, Follows, Advanced;
      CopyStep(s, client, copy.(job := job.(updatedAt := s.now)));
    }
  }

  lemma ClaimFollows(id: JobId, row: Row, log: seq<Entry>, worker: string, lease: int, now: Time)
    requires JobInv(id, row, log, now) && row.status.Queued?
    ensures var row' := ClaimedRow(row, worker, lease, now); var e := Entry(Claimed(lease), row'.data);
            MayAppend(log, e) && RowInv(id, row', log + [e])
  {
    hide LogInv, Deadline;
    AppendedRow(id, row, log, ClaimedRow(row, worker, lease, now), Claimed(lease), now);
  }

  lemma TakeFollows(id: JobId, row: Row, log: seq<Entry>, failed: string, queued: Option<string>, now: Time, kind: Kind)
    requires JobInv(id, row, log, now) && row.status.Active() && (kind.Expired? || kind.Released?)
    ensures var row' := RequeuedRow(row, failed, queued, now); var e := Entry(kind, row'.data);
            MayAppend(log, e) && RowInv(id, row', log + [e])
            && !row'.status.Active() && row'.repositoryUrl == row.repositoryUrl && row'.data.updatedAt == now
  {
    hide LogInv, Deadline;
    AppendedRow(id, row, log, RequeuedRow(row, failed, queued, now), kind, now);
  }

  lemma TouchFollows(id: JobId, row: Row, log: seq<Entry>, lease: int, now: Time)
    requires JobInv(id, row, log, now) && row.status.Active()
    ensures var row' := TouchedRow(row, lease, now); var e := Entry(Touched(lease), row'.data);
            MayAppend(log, e) && RowInv(id, row', log + [e])
  {
    hide LogInv, Deadline;
    AppendedRow(id, row, log, TouchedRow(row, lease, now), Touched(lease), now);
  }

  lemma ClaimKeepsInv(s: System, client: ClientId, id: JobId, worker: string, lease: int)
    requires Inv(s) && Claimable(s.table, id, s.now)
    ensures Inv(ClaimStep(s, client, id, worker, lease)) && Grows(s, ClaimStep(s, client, id, worker, lease))
  {
    assert JobInv(id, s.table[id], s.log[id], s.now);
    ClaimFollows(id, s.table[id], s.log[id], worker, lease, s.now);
    hide LogInv, RowInv, CopyInv, JobInv, Exclusive, MayAppend, Held;
    var row := ClaimedRow(s.table[id], worker, lease, s.now);
    CommitKeepsInv(s, id, row, Claimed(lease));
    FreshCopy(Commit(s, id, row, Claimed(lease)), client, id);
  }

  lemma Together(s: System)
    requires Inv(s)
    ensures s.table.Keys == s.log.Keys
  {
  }

  lemma ExpireAdvances(s: System, id: JobId)
    requires s.table.Keys == s.log.Keys && id in s.table && JobInv(id, s.table[id], s.log[id], s.now)
    ensures Advanced(id, s.table[id], s.log[id], ExpireStep(s).table[id], ExpireStep(s).log[id], s.now)
    ensures ExpireStep(s).table[id].status.Active() ==> ExpireStep(s).table[id] == s.table[id]
    ensures ExpireStep(s).table[id].repositoryUrl == s.table[id].repositoryUrl
  {
    if Expirable(s.table[id], s.now) {
      TakeFollows(id, s.table[id], s.log[id], EXPIRED_FINAL, None, s.now, Expired);
      hide LogInv, MayAppend;
      assert ExpireStep(s).log[id] == s.log[id] + [Entry(Expired, ExpiredRow(s.table[id], s.now).data)];
    }
  }

  lemma ExpireExtends(s: System)
    requires Inv(s)
    ensures var s' := ExpireStep(s);
            && Extends(s, s') && Exclusive(s'.table) && s'.copies == s.copies && s'.now == s.now
  {
    Together(s);
    var s' := ExpireStep(s);
    hide LogInv, RowInv, CopyInv, JobInv, MayAppend, Held, Advanced, Exclusive, ExpireAll, ExpiredRow;
    ExpireKeys(s);
    forall id | id in s.table
      ensures Advanced(id, s.table[id], s.log[id], s'.table[id], s'.log[id], s'.now)
              && s'.table[id].repositoryUrl == s.table[id].repositoryUrl
      ensures s'.table[id].status.Active() ==> s'.table[id] == s.table[id]
    {
      ExpireAdvances(s, id);
    }
    StillExclusive(s.table, s'.table);
  }

  lemma ExpireKeys(s: System)
    requires s.table.Keys == s.log.Keys
    ensures ExpireStep(s).table.Keys == ExpireStep(s).log.Keys == s.table.Keys
  {
  }

  lemma StillExclusive(t: Table, t': Table)
    requires Exclusive(t) && t'.Keys == t.Keys
    requires forall id | id in t ::
               t'[id].repositoryUrl == t[id].repositoryUrl && (t'[id].status.Active() ==> t'[id] == t[id])
    ensures Exclusive(t')
  {
  }

  lemma ExtendGrows(s: System, s': System)
    requires Extends(s, s')
    ensures Grows(s, s')
  {
    hide Advanced;
  }

  lemma ExpireKeepsInv(s: System)
    requires Inv(s)
    ensures Inv(ExpireStep(s)) && Grows(s, ExpireStep(s))
  {
    assert s.table.Keys == s.log.Keys;
    hide Inv, Extends, Grows, Exclusive, ExpireStep, Held;
    ExpireExtends(s);
    ExtendGrows(s, ExpireStep(s));
    ExtendKeepsInv(s, ExpireStep(s));
  }

  lemma StillHeld(copy: Copy, logs: map<JobId, seq<Entry>>, id: JobId, log: seq<Entry>)
    requires Held(copy, logs) && id !in logs
    ensures Held(copy, logs[id := log])
  {
    hide CopyInv;
  }

  lemma NewJobInv(id: JobId, job: JobData, now: Time)
    requires job.id == id && Origin(Entry(Created, job)) && job.updatedAt <= now
    ensures JobInv(id, Inserted(job), [Entry(Created, job)], now) && !Inserted(job).status.Active()
  {
  }

  lemma InsertExclusive(t: Table, id: JobId, row: Row)
    requires Exclusive(t) && id !in t && !row.status.Active()
    ensures Exclusive(t[id := row])
  {
  }

  lemma InsertKeepsInv(s: System, id: JobId, job: JobData)
    requires Inv(s) && id !in s.table && job.id == id && Origin(Entry(Created, job)) && job.updatedAt <= s.now
    ensures var s' := s.(table := s.table[id := Inserted(job)], log := s.log[id := [Entry(Created, job)]]);
            Inv(s') && Grows(s, s')
  {
    hide JobInv, Held, Exclusive, Advanced, Origin, Inserted;
    var s' := s.(table := s.table[id := Inserted(job)], log := s.log[id := [Entry(Created, job)]]);
    NewJobInv(id, job, s.now);
    InsertExclusive(s.table, id, Inserted(job));
    forall c | c in s'.copies
      ensures Held(s'.copies[c], s'.log)
    {
      StillHeld(s.copies[c], s.log, id, [Entry(Created, job)]);
    }
    forall o | o in s.table
      ensures Advanced(o, s.table[o], s.log[o], s'.table[o], s'.log[o], s.now)
    {
      NoAdvance(o, s.table[o], s.log[o], s.now);
    }
  }

  lemma CreateKeepsInv(s: System, step: Step)
    requires Inv(s) && step.DoCreate?
    ensures Inv(Do(s, step)) && Grows(s, Do(s, step))
  {
    if Do(s, step) != s {
      InsertKeepsInv(s, step.id, NewJob(step.id, step.key, step.spec, step.maxAttempts, s.now));
    } else {
      hide Do;
      SameTable(s, s);
    }
  }

  lemma EditStepKeepsInv(s: System, client: ClientId, edit: Edit)
    requires Inv(s) && client in s.copies
    ensures var s' := s.(copies := s.copies[client := Edited(s.copies[client], edit, s.now)]); Inv(s') && Grows(s, s')
  {
    assert Held(s.copies[client], s.log);
    EditKeepsInv(s.copies[client], edit, s.now, s.log[s.copies[client].job.id]);
    hide LogInv, RowInv, CopyInv, JobInv, Exclusive, Follows, Edited;
    CopyStep(s, client, Edited(s.copies[client], edit, s.now));
  }

  lemma TouchKeepsInv(s: System, id: JobId, worker: string, lease: int)
    requires Inv(s) && HoldsLease(s.table, id, worker)
    ensures var s' := Commit(s, id, TouchedRow(s.table[id], lease, s.now), Touched(lease)); Inv(s') && Grows(s, s')
  {
    assert JobInv(id, s.table[id], s.log[id], s.now);
    TouchFollows(id, s.table[id], s.log[id], lease, s.now);
    hide LogInv, RowInv, CopyInv, JobInv, Exclusive, MayAppend, Held;
    CommitKeepsInv(s, id, TouchedRow(s.table[id], lease, s.now), Touched(lease));
  }

  lemma ReleaseKeepsInv(s: System, id: JobId, worker: string)
    requires Inv(s) && Releasable(s.table, id, worker)
    ensures var s' := Commit(s, id, ReleasedRow(s.table[id], s.now), Released); Inv(s') && Grows(s, s')
  {
    assert JobInv(id, s.table[id], s.log[id], s.now);
    TakeFollows(id, s.table[id], s.log[id], RELEASED_FINAL, Some(RELEASED), s.now, Released);
    hide LogInv, RowInv, CopyInv, JobInv, Exclusive, MayAppend, Held;
    CommitKeepsInv(s, id, ReleasedRow(s.table[id], s.now), Released);
  }

  /** The steps that leave the table alone. */
  lemma AfterLoad(s: System, client: ClientId, id: JobId)
    requires s.table.Keys == s.log.Keys && id in s.table
    ensures Do(s, DoLoad(client, id)) == s.(copies := s.copies[client := Fresh(s.table[id].data, s.log[id])])
  {
  }

  lemma AfterEdit(s: System, client: ClientId, edit: Edit)
    requires s.table.Keys == s.log.Keys && client in s.copies
    ensures Do(s, DoEdit(client, edit)) == s.(copies := s.copies[client := Edited(s.copies[client], edit, s.now)])
  {
    hide Edited;
  }

  lemma TickKeepsInv(s: System, elapsed: Time)
    requires Inv(s)
    ensures Inv(Do(s, Tick(elapsed))) && Grows(s, Do(s, Tick(elapsed)))
  {
    assert s.table.Keys == s.log.Keys;
    hide Inv, Grows;
    SameTable(s, Do(s, Tick(elapsed)));
  }

  lemma ForgetKeepsInv(s: System, client: ClientId)
    requires Inv(s)
    ensures Inv(Do(s, DoForget(client))) && Grows(s, Do(s, DoForget(client)))
  {
    assert s.table.Keys == s.log.Keys;
    hide Inv, Grows;
    SameTable(s, Do(s, DoForget(client)));
  }

  lemma LoadKeepsInv(s: System, client: ClientId, id: JobId)
    requires Inv(s)
    ensures Inv(Do(s, DoLoad(client, id))) && Grows(s, Do(s, DoLoad(client, id)))
  {
    assert s.table.Keys == s.log.Keys;
    hide Inv, Grows, Fresh;
    if id in s.table {
      AfterLoad(s, client, id);
      FreshCopy(s, client, id);
    } else {
      SameTable(s, s);
    }
  }

  lemma DoEditKeepsInv(s: System, client: ClientId, edit: Edit)
    requires Inv(s)
    ensures Inv(Do(s, DoEdit(client, edit))) && Grows(s, Do(s, DoEdit(client, edit)))
  {
    assert s.table.Keys == s.log.Keys;
    hide Inv, Grows, Edited;
    if client in s.copies {
      AfterEdit(s, client, edit);
      EditStepKeepsInv(s, client, edit);
    } else {
      SameTable(s, s);
    }
  }

  lemma LocalStepKeepsInv(s: System, step: Step)
    requires Inv(s) && (step.Tick? || step.DoLoad? || step.DoForget? || step.DoEdit?)
    ensures Inv(Do(s, step)) && Grows(s, Do(s, step))
  {
    assert s.table.Keys == s.log.Keys;
    hide *;
    match step
    case Tick(elapsed) => TickKeepsInv(s, elapsed);
    case DoForget(client) => ForgetKeepsInv(s, client);
    case DoLoad(client, id) => LoadKeepsInv(s, client, id);
    case DoEdit(client, edit) => DoEditKeepsInv(s, client, edit);
  }

  lemma Unchanged(s: System)
    requires Inv(s)
    ensures Grows(s, s) && s.table.Keys == s.log.Keys
  {
    hide JobInv, Held, Exclusive;
    SameTable(s, s);
  }

  lemma DoSaveKeepsInv(s: System, client: ClientId)
    requires Inv(s)
    ensures Inv(Do(s, DoSave(client))) && Grows(s, Do(s, DoSave(client)))
  {
    Unchanged(s);
    hide Inv, Grows, Claimable, HoldsLease, Releasable, SaveStep, ClaimStep, ExpireStep, Commit;
    if client in s.copies { SaveKeepsInv(s, client); }
  }

  lemma DoClaimKeepsInv(s: System, client: ClientId, id: JobId, worker: string, lease: int)
    requires Inv(s)
    ensures Inv(Do(s, DoClaim(client, id, worker, lease))) && Grows(s, Do(s, DoClaim(client, id, worker, lease)))
  {
    Unchanged(s);
    hide Inv, Grows, Claimable, HoldsLease, Releasable, SaveStep, ClaimStep, ExpireStep, Commit;
    if Claimable(s.table, id, s.now) { ClaimKeepsInv(s, client, id, worker, lease); }
  }

  lemma DoTouchKeepsInv(s: System, id: JobId, worker: string, lease: int)
    requires Inv(s)
    ensures Inv(Do(s, DoTouch(id, worker, lease))) && Grows(s, Do(s, DoTouch(id, worker, lease)))
  {
    Unchanged(s);
    hide Inv, Grows, Claimable, Releasable, TouchedRow, SaveStep, ClaimStep, ExpireStep;
    if HoldsLease(s.table, id, worker) { TouchKeepsInv(s, id, worker, lease); }
  }

  lemma DoReleaseKeepsInv(s: System, id: JobId, worker: string)
    requires Inv(s)
    ensures Inv(Do(s, DoRelease(id, worker))) && Grows(s, Do(s, DoRelease(id, worker)))
  {
    Unchanged(s);
    hide Inv, Grows, Claimable, HoldsLease, ReleasedRow, SaveStep, ClaimStep, ExpireStep;
    if Releasable(s.table, id, worker) { ReleaseKeepsInv(s, id, worker); }
  }

  lemma DoExpireKeepsInv(s: System)
    requires Inv(s)
    ensures Inv(Do(s, DoExpire)) && Grows(s, Do(s, DoExpire))
  {
    Unchanged(s);
    hide Inv, Grows, Claimable, HoldsLease, Releasable, SaveStep, ClaimStep, ExpireStep, Commit;
    ExpireKeepsInv(s);
  }

  lemma CommitStepKeepsInv(s: System, step: Step)
    requires Inv(s) && (step.DoSave? || step.DoClaim? || step.DoTouch? || step.DoExpire? || step.DoRelease?)
    ensures Inv(Do(s, step)) && Grows(s, Do(s, step))
  {
    assert s.table.Keys == s.log.Keys;
    hide Inv, Grows, Do;
    match step
    case DoSave(client) => DoSaveKeepsInv(s, client);
    case DoClaim(client, id, worker, lease) => DoClaimKeepsInv(s, client, id, worker, lease);
    case DoTouch(id, worker, lease) => DoTouchKeepsInv(s, id, worker, lease);
    case DoExpire => DoExpireKeepsInv(s);
    case DoRelease(id, worker) => DoReleaseKeepsInv(s, id, worker);
  }

  lemma DoKeepsInv(s: System, step: Step)
    requires Inv(s)
    ensures Inv(Do(s, step)) && Grows(s, Do(s, step))
  {
    assert s.table.Keys == s.log.Keys;
    hide Inv, Grows, Do;
    if step.DoCreate? {
      CreateKeepsInv(s, step);
    } else if step.Tick? || step.DoLoad? || step.DoForget? || step.DoEdit? {
      LocalStepKeepsInv(s, step);
    } else {
      CommitStepKeepsInv(s, step);
    }
  }

  lemma {:induction false} RunKeepsInv(s: System, steps: seq<Step>)
    requires Inv(s)
    ensures Inv(Run(s, steps))
    decreases |steps|
  {
    if steps != [] {
      DoKeepsInv(s, steps[0]);
      RunKeepsInv(Do(s, steps[0]), steps[1..]);
    }
  }

  lemma RowStatus(id: JobId, row: Row, log: seq<Entry>, now: Time)
    requires JobInv(id, row, log, now)
    ensures LogInv(log) && log != [] && Last(log).data.status == row.status
  {
  }

  // ---------------------------------------------------------------- main results

  /** A step gives no row another key, and a row that it creates has a key of its own. */
  lemma KeysStay(s: System, step: Step, id: JobId)
    requires s.table.Keys == s.log.Keys && id in Do(s, step).table
    ensures id in s.table ==> Do(s, step).table[id].key == s.table[id].key
    ensures id !in s.table ==>
              step.DoCreate? && id == step.id && Do(s, step).table[id].key == step.key &&
              (step.key.None? || forall o | o in s.table :: s.table[o].key != step.key)
  {
    hide RequeuedData;
  }

  /** Idempotency, over every run: a key has at most one row. */
  lemma OneRowPerKey(steps: seq<Step>, a: JobId, b: JobId)
    requires a in Run(Start, steps).table && b in Run(Start, steps).table
    requires Run(Start, steps).table[a].key.Some?
    requires Run(Start, steps).table[a].key == Run(Start, steps).table[b].key
    ensures a == b
  {
    OneRowFrom(Start, steps, a, b);
  }

  predicate KeysUnique(t: Table) {
    forall a, b | a in t && b in t && t[a].key.Some? && t[a].key == t[b].key :: a == b
  }

  lemma StepKeepsKeys(s: System, step: Step)
    requires s.table.Keys == s.log.Keys && KeysUnique(s.table)
    ensures KeysUnique(Do(s, step).table)
  {
    hide Do;
    var t := Do(s, step).table;
    forall a, b | a in t && b in t && t[a].key.Some? && t[a].key == t[b].key
      ensures a == b
    {
      KeysStay(s, step, a);
      KeysStay(s, step, b);
    }
  }

  lemma {:induction false} OneRowFrom(s: System, steps: seq<Step>, a: JobId, b: JobId)
    requires s.table.Keys == s.log.Keys && KeysUnique(s.table)
    requires a in Run(s, steps).table && b in Run(s, steps).table
    requires Run(s, steps).table[a].key.Some? && Run(s, steps).table[a].key == Run(s, steps).table[b].key
    ensures a == b
    decreases |steps|
  {
    hide Do;
    if steps != [] {
      StepKeepsKeys(s, steps[0]);
      OneRowFrom(Do(s, steps[0]), steps[1..], a, b);
    }
  }

  /** Mutual exclusion, over every run: at most one active job per repository. */
  lemma MutualExclusion(steps: seq<Step>, a: JobId, b: JobId)
    requires a in Run(Start, steps).table && b in Run(Start, steps).table
    requires Run(Start, steps).table[a].status.Active() && Run(Start, steps).table[b].status.Active()
    requires Run(Start, steps).table[a].repositoryUrl == Run(Start, steps).table[b].repositoryUrl
    ensures a == b
  {
    RunKeepsInv(Start, steps);
  }

  /** The columns of every reachable row agree with its JSON image; active means leased. */
  lemma ColumnsAgree(steps: seq<Step>, id: JobId)
    requires id in Run(Start, steps).table
    ensures var row := Run(Start, steps).table[id];
            && row.data.id == id && row.status == row.data.status && row.version == row.data.version
            && row.notBefore == row.data.notBefore && row.leaseOwner == row.data.leaseOwner
            && (row.status.Active() <==> row.leaseOwner.Some?) && (row.status.Active() <==> row.leaseExpiresAt.Some?)
  {
    RunKeepsInv(Start, steps);
  }

  /** The step that may append a commit of this kind to the log of `id`. */
  predicate Signs(s: System, step: Step, id: JobId, kind: Kind) {
    match kind
    case Created => step.DoCreate? && step.id == id
    case Saved(_, _, _) => step.DoSave? && step.client in s.copies && s.copies[step.client].job.id == id
    case Claimed(lease) => step.DoClaim? && step.id == id && step.lease == lease
    case Touched(lease) => step.DoTouch? && step.id == id && step.lease == lease
    case Expired => step.DoExpire?
    case Released => step.DoRelease? && step.id == id
  }

  lemma StepSigns(s: System, step: Step, id: JobId)
    requires s.table.Keys == s.log.Keys && id in s.table
    ensures var s' := Do(s, step);
            id in s'.log && (s'.log[id] != s.log[id] ==> s'.log[id] != [] && Signs(s, step, id, Last(s'.log[id]).kind))
  {
    hide SavedRow, ClaimedRow, RequeuedRow, TouchedRow, Edited, Expirable, RepositoryIdle;
  }

  /** The log is a faithful record: it only grows, and a step that changes a row appends its new image. */
  lemma LogRecords(s: System, step: Step, id: JobId)
    requires Inv(s) && id in s.table
    ensures var s' := Do(s, step);
            && id in s'.table && s.log[id] <= s'.log[id] && |s'.log[id]| <= |s.log[id]| + 1
            && (s'.log[id] == s.log[id] ==> s'.table[id] == s.table[id])
            && (s'.log[id] != s.log[id] ==>
                  && s.log[id] != [] && s.log[id] == s'.log[id][..|s'.log[id]| - 1]
                  && Last(s.log[id]).data == s.table[id].data && Last(s'.log[id]).data == s'.table[id].data
                  && Follows(s.table[id].data, Last(s'.log[id]))
                  && Signs(s, step, id, Last(s'.log[id]).kind))
  {
    DoKeepsInv(s, step);
    StepSigns(s, step, id);
    assert JobInv(id, s.table[id], s.log[id], s.now)
        && JobInv(id, Do(s, step).table[id], Do(s, step).log[id], Do(s, step).now);
    hide Do, Follows, Signs;
    assert Advanced(id, s.table[id], s.log[id], Do(s, step).table[id], Do(s, step).log[id], Do(s, step).now);
  }

  /** Only a claim of that very job makes an inactive row active, whatever stale copies are saved. */
  lemma OnlyClaimsActivate(steps: seq<Step>, step: Step, id: JobId)
    requires var s := Run(Start, steps); id in s.table && !s.table[id].status.Active()
    requires var s' := Do(Run(Start, steps), step); id in s'.table && s'.table[id].status.Active()
    ensures step.DoClaim? && step.id == id
  {
    var s := Run(Start, steps);
    RunKeepsInv(Start, steps);
    DoKeepsInv(s, step);
    LogRecords(s, step, id);
    assert JobInv(id, s.table[id], s.log[id], s.now)
        && JobInv(id, Do(s, step).table[id], Do(s, step).log[id], Do(s, step).now);
    hide Do, Run, LogInv, Exclusive, Grows;
  }

  /** Fencing: a save lands exactly when nothing but heartbeats committed since the copy was read or saved. */
  lemma SaveLandsIffOnlyTouched(steps: seq<Step>, client: ClientId)
    requires client in Run(Start, steps).copies
    ensures var s := Run(Start, steps); var copy := s.copies[client];
            && copy.job.id in s.log
            && (SaveCommits(s.table, copy.job) <==> OnlyTouched(s.log[copy.job.id], copy.at))
  {
    RunKeepsInv(Start, steps);
    var s := Run(Start, steps);
    CommitGuard(s.table[s.copies[client].job.id], s.copies[client], s.log[s.copies[client].job.id]);
  }

  predicate Renews(step: Step, client: ClientId) {
    (step.DoLoad? && step.client == client) || (step.DoClaim? && step.client == client)
  }

  ghost predicate FencedOut(s: System, client: ClientId) {
    client in s.copies ==>
            Held(s.copies[client], s.log)
            && !OnlyTouched(s.log[s.copies[client].job.id], s.copies[client].at)
  }

  /** Without reading the job again or committing, a client keeps its place in the log. */
  lemma KeepsPlace(s: System, step: Step, client: ClientId)
    requires s.table.Keys == s.log.Keys && client in s.copies && !Renews(step, client)
    requires step == DoSave(client) ==> !SaveCommits(s.table, s.copies[client].job)
    ensures var s' := Do(s, step);
            client in s'.copies ==>
              s'.copies[client].at == s.copies[client].at && s'.copies[client].job.id == s.copies[client].job.id
  {
    hide SavedRow, ClaimedRow, RequeuedRow, TouchedRow, Expirable, RepositoryIdle, Edited;
  }

  lemma StaysAway(s: System, step: Step, client: ClientId)
    requires s.table.Keys == s.log.Keys && client !in s.copies && !Renews(step, client)
    ensures client !in Do(s, step).copies
    ensures step == DoSave(client) ==> Do(s, step) == s
  {
    hide SavedRow, ClaimedRow, RequeuedRow, TouchedRow, Expirable, RepositoryIdle, Edited;
  }

  /** A client that is fenced out keeps its place, and its save changes no row. */
  lemma FencedStep(s: System, step: Step, client: ClientId)
    requires Inv(s) && client in s.copies && FencedOut(s, client) && !Renews(step, client)
    ensures s.table.Keys == s.log.Keys
    ensures step == DoSave(client) ==>
              !SaveCommits(s.table, s.copies[client].job) && Do(s, step).table == s.table
  {
    var copy := s.copies[client];
    var id := copy.job.id;
    assert Held(copy, s.log) && JobInv(id, s.table[id], s.log[id], s.now);
    CommitGuard(s.table[id], copy, s.log[id]);
    hide SavedRow, LogInv, RowInv, CopyInv, JobInv, Exclusive;
  }

  lemma StillFenced(s: System, s': System, client: ClientId)
    requires FencedOut(s, client) && client in s.copies && Inv(s')
    requires var id := s.copies[client].job.id;
             && id in s.log && id in s'.log && s.log[id] <= s'.log[id]
             && (client in s'.copies ==> s'.copies[client].at == s.copies[client].at && s'.copies[client].job.id == id)
    ensures FencedOut(s', client)
  {
    CopyHeld(s', client);
    hide Inv, Held;
    var copy := s.copies[client];
    var id := copy.job.id;
    var k :| copy.at <= k < |s.log[id]| && !s.log[id][k].kind.Touched?;
    assert s'.log[id][k] == s.log[id][k];
  }

  lemma FenceHolds(s: System, step: Step, client: ClientId)
    requires Inv(s) && FencedOut(s, client) && !Renews(step, client)
    ensures Inv(Do(s, step)) && FencedOut(Do(s, step), client)
    ensures step == DoSave(client) ==> Do(s, step).table == s.table
  {
    assert s.table.Keys == s.log.Keys;
    assert client in s.copies ==> s.copies[client].job.id in s.table && s.copies[client].job.id in s.log by {
      CopyHeld(s, client);
    }
    assert client !in Do(s, step).copies ==> FencedOut(Do(s, step), client);
    hide Inv, Do, Held, OnlyTouched, Follows, Signs, Renews, SaveCommits;
    DoKeepsInv(s, step);
    if client in s.copies {
      hide FencedOut;
      FencedStep(s, step, client);
      KeepsPlace(s, step, client);
      LogRecords(s, step, s.copies[client].job.id);
      StillFenced(s, Do(s, step), client);
    } else {
      StaysAway(s, step, client);
    }
  }

  /**
   Once an expiry, release, forced requeue, new claim or foreign save has committed behind a copy, no
   write of that copy lands in any continuation until its client reads the job again.
   */
  lemma {:induction false} FencedForever(s: System, steps: seq<Step>, client: ClientId)
    requires Inv(s) && FencedOut(s, client)
    requires forall k | 0 <= k < |steps| :: !Renews(steps[k], client)
    ensures FencedOut(Run(s, steps), client)
    ensures Do(Run(s, steps), DoSave(client)).table == Run(s, steps).table
    decreases |steps|
  {
    if steps == [] {
      FenceHolds(s, DoSave(client), client);
    } else {
      FenceHolds(s, steps[0], client);
      DoKeepsInv(s, steps[0]);
      FencedForever(Do(s, steps[0]), steps[1..], client);
    }
  }

  /** Taking a job from its worker fences every copy of it that is out. */
  lemma TakingFences(s: System, step: Step, id: JobId, client: ClientId)
    requires Inv(s) && id in s.table && client in s.copies && s.copies[client].job.id == id
    requires step.DoExpire? || step.DoRelease? || step.DoClaim? || (step.DoSave? && step.client != client)
    requires !Renews(step, client) && Do(s, step).table[id] != s.table[id]
    ensures FencedOut(Do(s, step), client)
  {
    assert Held(s.copies[client], s.log) && s.table.Keys == s.log.Keys;
    hide Do, Inv, Follows, LogInv, RowInv, JobInv, Exclusive, Grows;
    DoKeepsInv(s, step);
    LogRecords(s, step, id);
    KeepsPlace(s, step, client);
    var s' := Do(s, step);
    assert client in s'.copies ==> Held(s'.copies[client], s'.log) by { CopyHeld(s', client); }
    assert !s'.log[id][|s'.log[id]| - 1].kind.Touched?;
  }

  lemma CopyHeld(s: System, client: ClientId)
    requires Inv(s)
    ensures client in s.copies ==> Held(s.copies[client], s.log)
  {
  }

  /** Two copies read at the same version are the same job, up to what heartbeats write. */
  lemma EqualVersionsAgree(steps: seq<Step>, a: ClientId, b: ClientId)
    requires var s := Run(Start, steps);
             && a in s.copies && b in s.copies
             && s.copies[a].job.id == s.copies[b].job.id && s.copies[a].base.version == s.copies[b].base.version
    ensures SameButLease(Run(Start, steps).copies[a].base, Run(Start, steps).copies[b].base)
  {
    RunKeepsInv(Start, steps);
    var s := Run(Start, steps);
    hide Run, JobInv, Exclusive;
    assert Held(s.copies[a], s.log) && Held(s.copies[b], s.log);
    var log := s.log[s.copies[a].job.id];
    assert LogInv(log) by {
      RowStatus(s.copies[a].job.id, s.table[s.copies[a].job.id], log, s.now);
    }
    hide LogInv, Inv;
    var i, j := s.copies[a].at - 1, s.copies[b].at - 1;
    VersionsTell(log, if i < j then i else j, if i < j then j else i);
  }

  // ---------------------------------------------------------------- status histories

  /** Every status a row passed through, the unsaved intermediate moves of its writers included. */
  function Statuses(log: seq<Entry>): seq<JobStatus>
    requires log != []
  {
    if |log| == 1 then [log[0].data.status]
    else
      var e := Last(log);
      Statuses(log[..|log| - 1]) +
      match e.kind
      case Created => []
      case Touched(_) => []
      case Saved(_, trail, _) => if trail == [] then [] else trail[1..]
      case Claimed(_) => [e.data.status]
      case Expired => [e.data.status]
      case Released => [e.data.status]
  }

  /** The history of every row is a path in the transition table, although three writers bypass it. */
  lemma {:induction false} HistoryIsPath(log: seq<Entry>)
    requires LogInv(log)
    ensures Statuses(log) != [] && Last(Statuses(log)) == Last(log).data.status
    ensures Statuses(log)[0] == Queued && IsPath(Statuses(log))
    decreases |log|
  {
    if |log| > 1 {
      var front, e := log[..|log| - 1], Last(log);
      PrefixInv(log);
      HistoryIsPath(front);
      var before, after := Statuses(front), Statuses(log);
      forall i | 0 < i < |after|
        ensures after[i] in Transitions(after[i - 1])
      {
        if i < |before| {
          assert after[i - 1] == before[i - 1] && after[i] == before[i];
        } else if e.kind.Saved? {
          assert after[i] == e.kind.trail[i - |before| + 1];
          assert after[i - 1] == e.kind.trail[i - |before|];
        }
      }
    }
  }

  /** In every run, each row stands at the end of a path through the transition table that began in the queue. */
  lemma EveryHistoryIsPath(steps: seq<Step>, id: JobId)
    requires id in Run(Start, steps).table
    ensures var s := Run(Start, steps);
            && s.log[id] != [] && Statuses(s.log[id]) != [] && IsPath(Statuses(s.log[id]))
            && Statuses(s.log[id])[0] == Queued && Last(Statuses(s.log[id])) == s.table[id].status
  {
    RunKeepsInv(Start, steps);
    var s := Run(Start, steps);
    RowStatus(id, s.table[id], s.log[id], s.now);
    hide Inv, Run;
    HistoryIsPath(s.log[id]);
  }

  predicate Final(status: JobStatus) {
    status.Completed? || status.Cancelled?
  }

  lemma {:induction false} FinalInLog(log: seq<Entry>, i: nat, j: nat)
    requires LogInv(log) && i <= j < |log| && Final(log[i].data.status)
    ensures log[j].data.status == log[i].data.status
    decreases j
  {
    if i < j {
      FinalInLog(log, i, j - 1);
      var e := log[j];
      assert FollowsAt(log, j);
      if e.kind.Saved? {
        var trail := e.kind.trail;
        assert |trail| > 1 ==> trail[1] in Transitions(trail[0]);
      }
    }
  }

  lemma {:induction false} LogGrows(s: System, steps: seq<Step>, id: JobId)
    requires Inv(s) && id in s.table
    ensures Inv(Run(s, steps)) && id in Run(s, steps).table && s.log[id] <= Run(s, steps).log[id]
    decreases |steps|
  {
    if steps != [] {
      DoKeepsInv(s, steps[0]);
      LogRecords(s, steps[0], id);
      LogGrows(Do(s, steps[0]), steps[1..], id);
    }
  }

  /** Completed and cancelled jobs stay so in every continuation, whatever stale copies exist. */
  lemma FinalForever(s: System, steps: seq<Step>, id: JobId)
    requires Inv(s) && id in s.table && Final(s.table[id].status)
    ensures id in Run(s, steps).table && Run(s, steps).table[id].status == s.table[id].status
  {
    hide LogInv, RowInv, JobInv, Run;
    LogGrows(s, steps, id);
    var s' := Run(s, steps);
    RowStatus(id, s.table[id], s.log[id], s.now);
    RowStatus(id, s'.table[id], s'.log[id], s'.now);
    hide Inv;
    FinalInLog(s'.log[id], |s.log[id]| - 1, |s'.log[id]| - 1);
  }

  // ---------------------------------------------------------------- attempts

  function Claims(log: seq<Entry>): nat {
    if log == [] then 0 else Claims(log[..|log| - 1]) + if Last(log).kind.Claimed? then 1 else 0
  }

  function Reenqueues(log: seq<Entry>): nat {
    if log == [] then 0
    else Reenqueues(log[..|log| - 1]) + if Last(log).kind.Saved? then Last(log).kind.requeues else 0
  }

  lemma {:induction false} AttemptsInLog(log: seq<Entry>)
    requires LogInv(log)
    ensures Last(log).data.attempt == Claims(log)
    ensures Claims(log) <= Last(log).data.maxAttempts + Reenqueues(log)
    ensures Last(log).data.status.Queued? ==> Claims(log) < Last(log).data.maxAttempts + Reenqueues(log)
    decreases |log|
  {
    var front := log[..|log| - 1];
    if |log| == 1 {
      assert front == [];
    } else {
      PrefixInv(log);
      AttemptsInLog(front);
    }
  }

  /**
   The attempt counter counts the claims, and automatic retries, expiries, releases and forced requeues
   alone never execute a job more than `maxAttempts` times: each further execution is paid for by an
   explicit re-enqueue.
   */
  lemma AttemptsBounded(steps: seq<Step>, id: JobId)
    requires id in Run(Start, steps).table
    ensures var s := Run(Start, steps);
            && s.table[id].data.attempt == Claims(s.log[id])
            && Claims(s.log[id]) <= s.table[id].data.maxAttempts + Reenqueues(s.log[id])
  {
    RunKeepsInv(Start, steps);
    AttemptsInLog(Run(Start, steps).log[id]);
  }

  lemma AfterSave(s: System, client: ClientId)
    requires s.table.Keys == s.log.Keys && client in s.copies && SaveCommits(s.table, s.copies[client].job)
    ensures var job := s.copies[client].job;
            Do(s, DoSave(client)).table == s.table[job.id := SavedRow(s.table[job.id], job, s.now)]
  {
    hide SavedRow;
  }

  lemma RowAgrees(s: System, id: JobId)
    requires Inv(s) && id in s.table
    ensures var row := s.table[id];
            && s.table.Keys == s.log.Keys && row.data.id == id && row.version == row.data.version
            && row.status == row.data.status
  {
    assert JobInv(id, s.table[id], s.log[id], s.now);
  }

  /**
   What `SqliteJobQueue.enqueue` does to a row that nobody else touches meanwhile.  Its comment promises
   new, paused and failed jobs; the transition table lets it also take running and publishing jobs from
   their workers.  Only completed and cancelled jobs are refused.
   */
  lemma EnqueueTakesAnyUnfinishedJob(s: System, client: ClientId, id: JobId)
    requires Inv(s) && id in s.table
    ensures var s' := Do(Do(Do(s, DoLoad(client, id)), DoEdit(client, Reenqueue)), DoSave(client));
            && id in s'.table && s'.table[id].data.attempt == s.table[id].data.attempt
            && (s'.table[id].status.Queued? <==> !Final(s.table[id].status))
  {
    hide Inv, Do, SavedRow;
    RowAgrees(s, id);
    var row := s.table[id];
    AfterLoad(s, client, id);
    var s1 := Do(s, DoLoad(client, id));
    AfterEdit(s1, client, Reenqueue);
    AfterSave(Do(s1, DoEdit(client, Reenqueue)), client);
    ReenqueuedRow(row, Fresh(row.data, s.log[id]), s.now);
  }

  lemma ReenqueuedRow(row: Row, copy: Copy, now: Time)
    requires row.status == row.data.status && copy.job == row.data
    ensures var saved := SavedRow(row, Edited(copy, Reenqueue, now).job, now);
            saved.data.attempt == row.data.attempt && (saved.status.Queued? <==> !Final(row.status))
  {
  }

  lemma ClaimedAtOnce(id: JobId, spec: RunSpec, worker: string, lease: int)
    requires !Blank(worker) && lease > 0
    ensures var create, claim := DoCreate(id, None, spec, 1), DoClaim(0, id, worker, lease);
            var s := Run(Start, [create, claim]);
            && s == Do(Do(Start, create), claim)
            && id in s.table && s.table[id].status.Running? && s.table[id].leaseOwner == Some(worker)
  {
    var create, claim := DoCreate(id, None, spec, 1), DoClaim(0, id, worker, lease);
    var s1 := Do(Start, create);
    assert s1.table == map[id := Inserted(NewJob(id, None, spec, 1, 0.0))];
    assert Claimable(s1.table, id, s1.now);
    assert [create, claim][1..] == [claim] && [claim][1..] == [];
    assert Run(s1, [claim]) == Do(s1, claim);
  }

  /** A run of the disputed family: a claimed job is enqueued, and its worker has lost it. */
  lemma RunningJobIsTaken(id: JobId, spec: RunSpec, worker: string, lease: int)
    requires !Blank(worker) && lease > 0
    ensures var s := Run(Start, [DoCreate(id, None, spec, 1), DoClaim(0, id, worker, lease)]);
            var s' := Do(Do(Do(s, DoLoad(1, id)), DoEdit(1, Reenqueue)), DoSave(1));
            && id in s.table && s.table[id].status.Running? && s.table[id].leaseOwner == Some(worker)
            && id in s'.table && s'.table[id].status.Queued?
  {
    hide Run, Do;
    var steps := [DoCreate(id, None, spec, 1), DoClaim(0, id, worker, lease)];
    ClaimedAtOnce(id, spec, worker, lease);
    RunKeepsInv(Start, steps);
    EnqueueTakesAnyUnfinishedJob(Run(Start, steps), 1, id);
  }
}
