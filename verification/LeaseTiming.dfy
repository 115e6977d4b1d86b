/**
 Lease deadlines (src/gca_service/worker.py, `_LeaseKeeper`; src/gca/jobs/store.py).

 Everything here is read off the commit log of one row: a claim or a heartbeat writes its own time plus
 the lease, and a save writes the deadline its copy was read with.
 */
module LeaseTiming {
  import opened Wrappers
  import opened JobModels
  import opened JobStore
  import opened JobSystem

  /** Every claim and every heartbeat asks for the same lease. */
  predicate LeaseIs(step: Step, lease: int) {
    (step.DoClaim? ==> step.lease == lease) && (step.DoTouch? ==> step.lease == lease)
  }

  predicate OneLease(log: seq<Entry>, lease: int) {
    forall k | 0 <= k < |log| ::
      (log[k].kind.Claimed? ==> log[k].kind.lease == lease) && (log[k].kind.Touched? ==> log[k].kind.lease == lease)
  }

  lemma StepGivesOneLease(s: System, step: Step, lease: int, id: JobId)
    requires Inv(s) && id in s.table && OneLease(s.log[id], lease) && LeaseIs(step, lease)
    ensures id in Do(s, step).table && OneLease(Do(s, step).log[id], lease)
  {
    hide Follows, OneLease;
    LogRecords(s, step, id);
    hide Inv, Do;
    AppendLease(s.log[id], Do(s, step).log[id], lease);
  }

  lemma AppendLease(log: seq<Entry>, log': seq<Entry>, lease: int)
    requires OneLease(log, lease)
    requires log' == log || (log' != [] && log'[..|log'| - 1] == log &&
               (Last(log').kind.Claimed? ==> Last(log').kind.lease == lease) &&
               (Last(log').kind.Touched? ==> Last(log').kind.lease == lease))
    ensures OneLease(log', lease)
  {
    forall k | 0 <= k < |log'|
      ensures (log'[k].kind.Claimed? ==> log'[k].kind.lease == lease)
              && (log'[k].kind.Touched? ==> log'[k].kind.lease == lease)
    {
      if log' != log && k < |log'| - 1 {
        assert log'[k] == log[k];
      }
    }
  }

  lemma RunNothing(s: System)
    requires s.table.Keys == s.log.Keys
    ensures Run(s, []) == s
  {
  }

  lemma RunFirst(s: System, steps: seq<Step>)
    requires s.table.Keys == s.log.Keys && steps != []
    ensures Run(s, steps) == Run(Do(s, steps[0]), steps[1..])
  {
    hide Do;
  }

  lemma {:induction false} StepsGiveOneLease(s: System, steps: seq<Step>, lease: int, id: JobId)
    requires Inv(s) && id in s.table && OneLease(s.log[id], lease)
    requires forall k | 0 <= k < |steps| :: LeaseIs(steps[k], lease)
    ensures id in Run(s, steps).log && OneLease(Run(s, steps).log[id], lease)
    decreases |steps|
  {
    hide *;
    Together(s);
    if steps == [] {
      RunNothing(s);
    } else {
      RunFirst(s, steps);
      var s' := Do(s, steps[0]);
      DoKeepsInv(s, steps[0]);
      StepGivesOneLease(s, steps[0], lease, id);
      StepsGiveOneLease(s', steps[1..], lease, id);
    }
  }

  /** When the last claim or heartbeat of a log committed. */
  function LastBeat(log: seq<Entry>): Time
    requires log != []
  {
    var e := Last(log);
    if e.kind.Claimed? || e.kind.Touched? || |log| == 1 then e.data.updatedAt else LastBeat(log[..|log| - 1])
  }

  /** The column a sweep reads is the last beat plus the lease; saves never move it. */
  lemma {:induction false} ColumnIsLastBeat(log: seq<Entry>, lease: int)
    requires LogInv(log) && OneLease(log, lease) && Last(log).data.status.Active()
    ensures Deadline(log) == Some(LastBeat(log) + lease as real) && LastBeat(log) <= Last(log).data.updatedAt
    decreases |log|
  {
    if |log| > 1 {
      PrefixInv(log);
      var front := log[..|log| - 1];
      if !Last(log).kind.Claimed? && !Last(log).kind.Touched? {
        ColumnIsLastBeat(front, lease);
      }
    }
  }

  lemma {:induction false} BeatsInOrder(log: seq<Entry>, k: nat)
    requires LogInv(log) && k < |log|
    ensures log[k].data.updatedAt <= Last(log).data.updatedAt
    decreases |log| - k
  {
    if k < |log| - 1 {
      assert FollowsAt(log, k + 1);
      BeatsInOrder(log, k + 1);
    }
  }

  /** The deadline in the JSON image is that of some earlier beat, so it never exceeds the column. */
  lemma {:induction false} JsonTrailsInLog(log: seq<Entry>, lease: int)
    requires LogInv(log) && OneLease(log, lease) && Last(log).data.status.Active()
    ensures Last(log).data.leaseExpiresAt.Some? && Deadline(log).Some?
    ensures Last(log).data.leaseExpiresAt.value <= Deadline(log).value
    decreases |log|
  {
    ColumnIsLastBeat(log, lease);
    var e := Last(log);
    assert |log| > 1 ==> FollowsAt(log, |log| - 1);
    if e.kind.Saved? {
      var front, source := log[..|log| - 1], log[..e.kind.at];
      PrefixInv(log);
      PrefixesInv(log, e.kind.at);
      VersionsTell(front, e.kind.at - 1, |front| - 1);
      assert Last(source) == log[e.kind.at - 1];
      JsonTrailsInLog(source, lease);
      DeadlinesRise(front, e.kind.at, lease);
      assert front[..e.kind.at] == source;
    }
  }

  lemma {:induction false} PrefixesInv(log: seq<Entry>, n: nat)
    requires LogInv(log) && 0 < n <= |log|
    ensures LogInv(log[..n])
    decreases |log|
  {
    if n < |log| {
      PrefixInv(log);
      assert log[..|log| - 1][..n] == log[..n];
      PrefixesInv(log[..|log| - 1], n);
    } else {
      assert log[..n] == log;
    }
  }

  /** Heartbeats only push the deadline out. */
  lemma {:induction false} DeadlinesRise(log: seq<Entry>, n: nat, lease: int)
    requires LogInv(log) && OneLease(log, lease) && 0 < n <= |log| && log[n - 1].data.status.Active()
    requires forall k | n <= k < |log| :: log[k].kind.Touched?
    ensures Deadline(log[..n]).Some? && Deadline(log).Some? && Deadline(log[..n]).value <= Deadline(log).value
    decreases |log|
  {
    PrefixesInv(log, n);
    ColumnIsLastBeat(log[..n], lease);
    if n < |log| {
      PrefixInv(log);
      var front := log[..|log| - 1];
      assert front[..n] == log[..n];
      DeadlinesRise(front, n, lease);
      ColumnIsLastBeat(front, lease);
    } else {
      assert log[..n] == log;
    }
  }

  /** For one lease length, in every run: the JSON deadline never exceeds the column a sweep reads. */
  lemma JsonTrailsColumn(steps: seq<Step>, lease: int, id: JobId)
    requires id in Run(Start, steps).table && Run(Start, steps).table[id].status.Active()
    requires OneLease(Run(Start, steps).log[id], lease)
    ensures var row := Run(Start, steps).table[id];
            && row.leaseExpiresAt.Some? && row.data.leaseExpiresAt.Some?
            && row.data.leaseExpiresAt.value <= row.leaseExpiresAt.value
            && Run(Start, steps).log[id] != []
            && row.leaseExpiresAt == Some(LastBeat(Run(Start, steps).log[id]) + lease as real)
  {
    RunKeepsInv(Start, steps);
    var s := Run(Start, steps);
    assert JobInv(id, s.table[id], s.log[id], s.now);
    hide Inv, Run;
    JsonTrailsInLog(s.log[id], lease);
    ColumnIsLastBeat(s.log[id], lease);
  }

  // ---------------------------------------------------------------- heartbeats

  /** Seconds the heartbeat thread waits between two touches. */
  function Interval(lease: int): real {
    var third := lease as real / 3.0;
    var floor := if third < 0.1 then 0.1 else third;
    if floor < 30.0 then floor else 30.0
  }

  /** How late a heartbeat may commit: at least two thirds of the lease. */
  lemma SlackIsTwoThirds(lease: int)
    requires lease >= 1
    ensures 0.0 < Interval(lease) <= 30.0 && lease as real - Interval(lease) >= 2.0 * lease as real / 3.0
    ensures Interval(lease) == if lease >= 90 then 30.0 else lease as real / 3.0
  {
  }

  /** Until the next beat commits, the clock never passes its due time by more than `late`. */
  ghost predicate Punctual(s: System, steps: seq<Step>, id: JobId, lease: int, late: real)
    requires s.table.Keys == s.log.Keys
    decreases |steps|
  {
    && id in s.log && s.log[id] != []
    && s.now <= LastBeat(s.log[id]) + Interval(lease) + late
    && (steps != [] ==> Punctual(Do(s, steps[0]), steps[1..], id, lease, late))
  }

  /** If the job leaves its worker at all during the steps, no expiry sweep took it. */
  ghost predicate NeverTaken(s: System, steps: seq<Step>, id: JobId)
    requires s.table.Keys == s.log.Keys
    decreases |steps|
  {
    steps != [] ==>
      var s' := Do(s, steps[0]);
      if id in s'.table && s'.table[id].status.Active() then NeverTaken(s', steps[1..], id) else !steps[0].DoExpire?
  }

  lemma SweepSpares(s: System, id: JobId)
    requires s.table.Keys == s.log.Keys && id in s.table && !Expirable(s.table[id], s.now)
    ensures Do(s, DoExpire).table[id] == s.table[id]
  {
    hide RequeuedRow;
  }

  /** The lease column of an active row is its last beat plus the lease. */
  lemma RowBeats(s: System, id: JobId, lease: int)
    requires Inv(s) && id in s.table && s.table[id].status.Active() && OneLease(s.log[id], lease)
    ensures id in s.log && s.log[id] != []
    ensures s.table[id].leaseExpiresAt == Some(LastBeat(s.log[id]) + lease as real)
  {
    assert JobInv(id, s.table[id], s.log[id], s.now);
    ColumnIsLastBeat(s.log[id], lease);
    hide LogInv, OneLease;
  }

  lemma NotExpirable(s: System, id: JobId)
    requires id in s.table && s.table[id].leaseExpiresAt.Some? && s.now < s.table[id].leaseExpiresAt.value
    ensures !Expirable(s.table[id], s.now)
  {
  }

  /**
   Timed lease safety: a worker whose heartbeats commit less than the lease minus the interval late keeps
   its job from every expiry sweep, for any number of heartbeats and any saves in between.
   */
  lemma {:induction false} PunctualWorkerKeepsJob(s: System, steps: seq<Step>, id: JobId, lease: int, late: real)
    requires Inv(s) && id in s.table && s.table[id].status.Active() && OneLease(s.log[id], lease)
    requires lease >= 1 && late < lease as real - Interval(lease)
    requires (forall k | 0 <= k < |steps| :: LeaseIs(steps[k], lease)) && Punctual(s, steps, id, lease, late)
    ensures NeverTaken(s, steps, id)
    decreases |steps|
  {
    hide *;
    Together(s);
    if steps == [] {
      NoSteps(s, id);
    } else {
      var step, s' := steps[0], Do(s, steps[0]);
      DoKeepsInv(s, step);
      PunctualStep(s, steps, id, lease, late);
      SweepMisses(s, steps[0], id, lease, late);
      TakenStep(s, steps, id);
      StepGivesOneLease(s, step, lease, id);
      Together(s');
      if id in s'.table && s'.table[id].status.Active() {
        PunctualWorkerKeepsJob(s', steps[1..], id, lease, late);
      }
    }
  }

  lemma NoSteps(s: System, id: JobId)
    requires s.table.Keys == s.log.Keys
    ensures NeverTaken(s, [], id)
  {
  }

  lemma PunctualStep(s: System, steps: seq<Step>, id: JobId, lease: int, late: real)
    requires s.table.Keys == s.log.Keys && steps != [] && Punctual(s, steps, id, lease, late)
    ensures id in s.log && s.log[id] != [] && s.now <= LastBeat(s.log[id]) + Interval(lease) + late
    ensures Punctual(Do(s, steps[0]), steps[1..], id, lease, late)
  {
    hide Do, Interval, LastBeat;
  }

  lemma TakenStep(s: System, steps: seq<Step>, id: JobId)
    requires s.table.Keys == s.log.Keys && steps != []
    ensures var s' := Do(s, steps[0]);
            NeverTaken(s, steps, id) ==
            if id in s'.table && s'.table[id].status.Active() then NeverTaken(s', steps[1..], id)
            else !steps[0].DoExpire?
  {
    hide Do;
  }

  /** A sweep leaves a job alone whose last beat is recent enough. */
  lemma SweepMisses(s: System, step: Step, id: JobId, lease: int, late: real)
    requires Inv(s) && id in s.table && s.table[id].status.Active() && OneLease(s.log[id], lease) && s.log[id] != []
    requires late < lease as real - Interval(lease) && s.now <= LastBeat(s.log[id]) + Interval(lease) + late
    ensures s.table.Keys == s.log.Keys
    ensures step.DoExpire? ==> id in Do(s, step).table && Do(s, step).table[id].status.Active()
  {
    Together(s);
    hide Inv, OneLease, Interval, LastBeat;
    RowBeats(s, id, lease);
    if step.DoExpire? {
      NotExpirable(s, id);
      SweepSpares(s, id);
    }
  }
}
