/**
 The feature workflow (src/gca/orchestrator.py, lines 44-86 and 321-516): planning, implementation and review under
 one step budget, with rework cycles.  Every state it saves is durable, so a run that stops after any save can be
 resumed from there.
 */
module Feature {
  import opened Wrappers
  import opened Text
  import opened AgentSystem
  import opened AgentRuns
  import opened AgentOutcome
  import opened Usage
  import opened FeatureModels

  /** The child session of a phase as it stands at a save, with the usage it has counted. */
  datatype Snapshot = Snapshot(session: Session, model: string, usage: Totals)

  /** What a phase's agent does up to a save: its session and model then, and the completions it has received. */
  datatype Shot = Shot(session: Session, model: string, completions: seq<LlmUsage>)

  function Sessions(shots: seq<Shot>): seq<Session> {
    seq(|shots|, i requires 0 <= i < |shots| => shots[i].session)
  }

  /** The agent of a phase, on its n-th run: what it does, given its session and its step limit. */
  type PhaseAgent = (nat, Session, nat) -> seq<Shot>

  /** Whenever it is started on an active session with a true step count, the agent saves a proper sequence. */
  ghost predicate Obedient(agent: PhaseAgent) {
    forall n, child: Session, limit | child.status == ACTIVE && child.steps == Turns(child.messages) ::
      SavesOf(child, limit, Sessions(agent(n, child, limit)))
  }

  /** The agent of the code, with any models and tools, and whatever model names and completions go with its saves. */
  function CodeAgent(models: nat -> Model, tools: nat -> Tools, received: (nat, nat) -> (string, seq<LlmUsage>))
      : PhaseAgent {
    (n: nat, child: Session, limit: nat) =>
      var saves := RunSaves(child, limit, models(n), tools(n));
      seq(|saves|, i requires 0 <= i < |saves| => Shot(saves[i], received(n, i).0, received(n, i).1))
  }

  lemma CodeAgentObeys(models: nat -> Model, tools: nat -> Tools, received: (nat, nat) -> (string, seq<LlmUsage>))
    ensures Obedient(CodeAgent(models, tools, received))
  {
    hide SavesOf, RunSaves, Turns;
    var agent := CodeAgent(models, tools, received);
    forall n, child: Session, limit | child.status == ACTIVE && child.steps == Turns(child.messages)
      ensures SavesOf(child, limit, Sessions(agent(n, child, limit)))
    {
      RunSavesWell(child, limit, models(n), tools(n));
      assert Sessions(agent(n, child, limit)) == RunSaves(child, limit, models(n), tools(n));
    }
  }

  /** The ephemeral session that `_run_phase` gives to an agent. */
  class PhaseChild {
    var session: Session
    var model: string
    var usage: Totals

    constructor (session: Session, model: string)
      ensures Value() == Snapshot(session, model, EMPTY)
    {
      this.session, this.model, this.usage := session, model, EMPTY;
    }

    function Value(): Snapshot
      reads this
    {
      Snapshot(session, model, usage)
    }

    /** The agent works up to its next save, and merges each completion into the usage of its session. */
    method Work(shot: Shot)
      modifies this
      ensures Value() == Snapshot(shot.session, if shot.model != "" then shot.model else old(model),
                                  Collected(old(usage), shot.completions))
    {
      hide Merged;
      session := shot.session;
      if shot.model != "" {
        model := shot.model;
      }
      for i := 0 to |shot.completions|
        invariant Value() == Snapshot(shot.session, if shot.model != "" then shot.model else old(model),
                                      Collected(old(usage), shot.completions[..i]))
      {
        var totals := new LlmUsageTotals(usage);
        var merged := MergeUsage(totals, Some(shot.completions[i]));
        usage := merged.Value();
        assert shot.completions[..i + 1][..i] == shot.completions[..i];
      }
      assert shot.completions[..|shot.completions|] == shot.completions;
    }
  }

  // ---------------------------------------------------------------- saving a phase

  function SavedRecord(r: Record, s: Snapshot): Record {
    Record(r.phase, if s.model != "" then s.model else r.model,
           s.session.messages, s.session.status, s.session.steps, s.session.finalMessage, s.session.inflight)
  }

  /** The parent after its last record took a snapshot of the phase's agent. */
  function PhaseSaved(p: Parent, s: Snapshot): Parent
    requires p.runs != []
  {
    var n := |p.runs| - 1;
    var r := SavedRecord(p.runs[n], s);
    var moved := r.model != p.runs[n].model;
    var runs := p.runs[n := r];
    p.(runs := runs,
       activeModel := if moved then r.model else p.activeModel,
       bindings := if moved then p.bindings[p.phase := r.model] else p.bindings,
       steps := StepSum(runs),
       usage := MergedTotals(p.usage, s.usage))
  }

  /** A phase is at work: its record is the last one, and a failed one only fails again. */
  predicate AtWork(p: Parent, next: Status) {
    && Durable(p) && p.status == ACTIVE && p.runs != [] && p.runs[|p.runs| - 1].phase == p.phase
    && (p.runs[|p.runs| - 1].status == FAILED ==> next == FAILED)
  }

  lemma StepSumLast(runs: seq<Record>, r: Record)
    requires runs != []
    ensures var n := |runs| - 1;
            StepSum(runs[n := r]) == StepSum(runs) - runs[n].steps + r.steps
  {
    assert runs[|runs| - 1 := r][..|runs| - 1] == runs[..|runs| - 1];
  }

  lemma ScheduleNext(p: Parent)
    requires p.phase == Planning ==> p.reviewCycles == 0
    ensures Schedule(Place(p) + 1) == Schedule(Place(p)) + [p.phase]
  {
  }

  /** The runs before that of the current phase are the schedule before it. */
  lemma FrontOnSchedule(p: Parent)
    requires OnSchedule(p) && p.runs != [] && p.runs[|p.runs| - 1].phase == p.phase
    ensures Kept(p.runs[..|p.runs| - 1]) == Schedule(Place(p))
  {
    ScheduleNext(p);
    var front := Kept(p.runs[..|p.runs| - 1]);
    assert Kept(p.runs) == front + if Current(p) then [p.phase] else [];
    hide Kept, Schedule;
    assert (front + [p.phase])[..|front|] == front && front + [] == front;
    assert (Schedule(Place(p)) + [p.phase])[..|Schedule(Place(p))|] == Schedule(Place(p));
  }

  lemma LastOnSchedule(p: Parent)
    requires p.runs != [] && p.runs[|p.runs| - 1].phase == p.phase
    requires p.reviewCycles <= p.maxReviewCycles && (p.phase == Planning ==> p.reviewCycles == 0)
    requires Kept(p.runs[..|p.runs| - 1]) == Schedule(Place(p))
    ensures OnSchedule(p)
  {
    ScheduleNext(p);
    var front := Kept(p.runs[..|p.runs| - 1]);
    assert Kept(p.runs) == front + if Current(p) then [p.phase] else [];
    hide Kept, Schedule;
    assert front + [] == front;
  }

  lemma PhaseSavedOnSchedule(p: Parent, s: Snapshot)
    requires OnSchedule(p) && p.runs != [] && p.runs[|p.runs| - 1].phase == p.phase
    ensures OnSchedule(PhaseSaved(p, s))
  {
    hide Kept, Schedule, MergedTotals, Collected, StepSum;
    FrontOnSchedule(p);
    var q := PhaseSaved(p, s);
    assert q.runs[..|q.runs| - 1] == p.runs[..|p.runs| - 1];
    LastOnSchedule(q);
  }

  /** What Durable says about the records themselves. */
  lemma PhaseSavedRecords(p: Parent, s: Snapshot)
    requires Durable(p) && p.runs != [] && p.runs[|p.runs| - 1].phase == p.phase
             && s.session.steps == Turns(s.session.messages)
    ensures var q := PhaseSaved(p, s);
            && (forall r | r in q.runs :: TurnsCounted(r))
            && (forall i | 0 <= i < |q.runs| - 1 :: Settled(q.runs[i]))
  {
    hide OnSchedule, Turns, StepSum, Approves, Strip, MergedTotals, Collected, Current;
    var q := PhaseSaved(p, s);
    assert forall r | r in q.runs :: r == q.runs[|q.runs| - 1] || r in p.runs;
  }

  lemma PhaseSavedKeeps(p: Parent, s: Snapshot)
    requires AtWork(p, s.session.status) && s.session.steps == Turns(s.session.messages)
    ensures var q := PhaseSaved(p, s);
            && Durable(q) && AtWork(q, s.session.status)
            && Current(q) == (s.session.status != FAILED)
            && q.steps == p.steps - p.runs[|p.runs| - 1].steps + s.session.steps
  {
    hide OnSchedule, TurnsCounted, StepSum, Approves, Strip, MergedTotals, Collected;
    PhaseSavedOnSchedule(p, s);
    StepSumLast(p.runs, SavedRecord(p.runs[|p.runs| - 1], s));
    PhaseSavedRecords(p, s);
  }

  // ---------------------------------------------------------------- beginning a phase

  /** `_resumable_record`. */
  predicate Resumable(p: Parent, model: string) {
    && p.runs != [] && p.runs[|p.runs| - 1].phase == p.phase && p.runs[|p.runs| - 1].model == model
    && p.runs[|p.runs| - 1].status != FAILED
  }

  function NewRecord(p: Parent, prompts: seq<Message>): Record
    requires p.phase in p.bindings
  {
    Record(p.phase, p.bindings[p.phase], prompts, ACTIVE, 0, "", "")
  }

  lemma {:induction false} SilentPrompts(prompts: seq<Message>)
    requires forall m | m in prompts :: m.Prompt?
    ensures Turns(prompts) == 0
  {
    if prompts != [] {
      assert prompts[|prompts| - 1] in prompts;
      SilentPrompts(prompts[..|prompts| - 1]);
    }
  }

  lemma NewRecordOnSchedule(p: Parent, r: Record)
    requires OnSchedule(p) && !Current(p) && r.phase == p.phase
    ensures OnSchedule(p.(runs := p.runs + [r]))
  {
    hide Kept, Schedule;
    var q := p.(runs := p.runs + [r]);
    assert q.runs[..|q.runs| - 1] == p.runs;
    LastOnSchedule(q);
  }

  lemma NewRecordRows(p: Parent, r: Record)
    requires Durable(p) && !Current(p) && TurnsCounted(r) && r.steps == 0
    ensures var runs := p.runs + [r];
            && StepSum(runs) == StepSum(p.runs) && (forall x | x in runs :: TurnsCounted(x))
            && forall i | 0 <= i < |runs| - 1 :: Settled(runs[i])
  {
    hide OnSchedule, TurnsCounted, Approves, Strip;
    assert (p.runs + [r])[..|p.runs|] == p.runs;
    hide StepSum;
    assert forall i | 0 <= i < |p.runs| :: (p.runs + [r])[i] == p.runs[i];
  }

  lemma NewRecordCounts(p: Parent, prompts: seq<Message>)
    requires p.phase in p.bindings && forall m | m in prompts :: m.Prompt?
    ensures TurnsCounted(NewRecord(p, prompts))
  {
    SilentPrompts(prompts);
  }

  lemma NewRecordKeeps(p: Parent, prompts: seq<Message>)
    requires Durable(p) && !Current(p) && p.status == ACTIVE && forall m | m in prompts :: m.Prompt?
    ensures p.phase in p.bindings
    ensures var q := p.(runs := p.runs + [NewRecord(p, prompts)]);
            Durable(q) && Current(q) && q.steps == p.steps
  {
    hide OnSchedule, TurnsCounted, Approves, Strip, StepSum, Settled;
    BoundPhase(p);
    NewRecordCounts(p, prompts);
    NewRecordOnSchedule(p, NewRecord(p, prompts));
    NewRecordRows(p, NewRecord(p, prompts));
  }

  // ---------------------------------------------------------------- going on to the next phase

  /** The run of the current phase is complete, and `q` is about to begin the next phase of the schedule. */
  predicate MovesOn(p: Parent, q: Parent) {
    && Current(p) && p.runs[|p.runs| - 1].status == COMPLETED && p.status == ACTIVE
    && q.phase != p.phase && q.phase != Planning && Place(q) == Place(p) + 1
    && q.reviewCycles <= q.maxReviewCycles
    && (q.phase == Review ==> Strip(Artifact(q.artifacts, "implementation")) != "")
    && q == p.(phase := q.phase, reviewCycles := q.reviewCycles, artifacts := q.artifacts)
  }

  lemma MovingOnKeeps(p: Parent, q: Parent)
    requires Durable(p) && MovesOn(p, q)
    ensures Durable(q) && !Current(q)
  {
    hide Kept, StepSum, TurnsCounted, Approves, Strip, Schedule;
  }

  /** Any other change of the parent: its artifacts, its status, its messages. */
  lemma OtherKeeps(p: Parent, q: Parent)
    requires Durable(p) && q ==
             p.(status := q.status, artifacts := q.artifacts, finalMessage := q.finalMessage,
               activeModel := q.activeModel, usage := q.usage)
    requires q.phase == Review ==> Strip(Artifact(q.artifacts, "implementation")) != ""
    requires q.status == COMPLETED ==> Current(q) && Approves(q.runs[|q.runs| - 1])
    ensures Durable(q)
  {
    hide Kept, StepSum, TurnsCounted, Approves, Strip, Schedule;
  }

  lemma ShotFacts(child: Session, limit: nat, shots: seq<Shot>, i: nat)
    requires SavesOf(child, limit, Sessions(shots)) && i < |shots|
    ensures var s := shots[i].session;
            && s.steps == Turns(s.messages) && child.steps <= s.steps && (s.steps <= child.steps || s.steps <= limit)
            && (s.status == ACTIVE <==> i < |shots| - 1)
  {
    var sessions := Sessions(shots);
    assert sessions[i] == shots[i].session;
    if i < |shots| - 1 {
      assert sessions[i] in sessions[..|sessions| - 1];
    }
    hide Turns;
  }

  lemma SomeShots(child: Session, limit: nat, shots: seq<Shot>)
    requires SavesOf(child, limit, Sessions(shots))
    ensures shots != []
  {
  }

  /** A child whose usage was cleared adds nothing. */
  lemma NothingRolls(start: Totals)
    ensures MergedTotals(start, EMPTY) == start
  {
    RollUp(start, []);
    CollectedStep(start, []);
    CollectedStep(EMPTY, []);
  }

  /** The steps a phase may take: the first implementation leaves the review a reserve, when there is one to leave. */
  function Allotment(p: Parent, maxSteps: nat, reserve: nat): nat
    requires p.steps < maxSteps
  {
    var remaining := maxSteps - p.steps;
    if p.phase == Implementation && p.reviewCycles == 0 && maxSteps > reserve && remaining - reserve < 1 then 1
    else if p.phase == Implementation && p.reviewCycles == 0 && maxSteps > reserve then remaining - reserve
    else remaining
  }

  /** Only the first implementation is cut short, by the reserve, and every phase may take a step. */
  lemma AllotmentIs(p: Parent, maxSteps: nat, reserve: nat)
    requires p.steps < maxSteps
    ensures 1 <= Allotment(p, maxSteps, reserve) <= maxSteps - p.steps
    ensures Allotment(p, maxSteps, reserve) ==
            if p.phase != Implementation || p.reviewCycles > 0 || reserve >= maxSteps then maxSteps - p.steps
            else Max(1, maxSteps - p.steps - reserve)
  {
  }

  /** Only the records, their totals and the models may differ: a phase does not move the workflow. */
  predicate SameWorkflow(p: Parent, q: Parent) {
    && q.phase == p.phase && q.reviewCycles == p.reviewCycles && q.maxReviewCycles == p.maxReviewCycles
    && q.artifacts == p.artifacts && q.status == p.status
  }

  function Rank(phase: Phase): nat {
    match phase
    case Planning => 2
    case Implementation => 1
    case Review => 0
  }

  const REVIEW_STEP_RESERVE := 5

  class RunCoordinator {
    const maxSteps: nat
    const reserve: nat
    var parent: Parent
    /** The session file. */
    var stored: Parent
    /** Every state of the file so far, and the completions counted in the last run. */
    ghost var saved: seq<Parent>
    ghost var completions: seq<LlmUsage>

    constructor (maxSteps: nat, reviewStepReserve: int, parent: Parent)
      requires Durable(parent) && parent.steps <= maxSteps
      ensures Valid() && this.parent == stored == parent && this.maxSteps == maxSteps
      ensures reserve == if reviewStepReserve < 0 then 5 else reviewStepReserve
    {
      this.maxSteps := maxSteps;
      this.reserve := if reviewStepReserve < 0 then REVIEW_STEP_RESERVE else reviewStepReserve;
      this.parent, stored, saved, completions := parent, parent, [parent], [];
    }

    /** A state within the budget that satisfies every durable property. */
    predicate Fine(p: Parent) {
      Durable(p) && p.steps <= maxSteps
    }

    /** Everything ever saved is fine, so a process that dies leaves a file to resume from. */
    ghost predicate Valid()
      reads this
    {
      Fine(parent) && (forall p | p in saved :: Fine(p)) && saved != [] && stored == saved[|saved| - 1]
    }

    /** The process dies right after some save, and another one loads what the file held then. */
    method Restart(file: Parent, ghost k: nat)
      requires Valid() && k < |saved| && saved[k] == file
      modifies this
      ensures Valid() && parent == stored == file
    {
      hide Durable;
      stored, parent := file, file;
      saved := saved[..k + 1];
    }

    method Save()
      requires Valid()
      modifies this
      ensures Valid() && parent == stored == old(parent) && saved == old(saved) + [parent]
      ensures completions == old(completions)
    {
      hide Durable;
      stored := parent;
      saved := saved + [parent];
    }

    /**
     `_PhaseStore.save`: the usage of the child moves into the parent, so that the next save does not count it again.
     */
    method SavePhase(child: PhaseChild)
      requires Valid() && AtWork(parent, child.session.status) && child.session.steps == Turns(child.session.messages)
      requires parent.steps - parent.runs[|parent.runs| - 1].steps + child.session.steps <= maxSteps
      modifies this, child
      ensures Valid() && parent == stored == PhaseSaved(old(parent), old(child.Value()))
              && saved == old(saved) + [parent]
      ensures var was, last := old(parent.runs)[|old(parent.runs)| - 1], parent.runs[|parent.runs| - 1];
              && |parent.runs| == |old(parent.runs)|
              && parent.runs[..|parent.runs| - 1] == old(parent.runs)[..|parent.runs| - 1]
              && last == Record(was.phase, if old(child.model) != "" then old(child.model) else was.model,
                   child.session.messages, child.session.status, child.session.steps, child.session.finalMessage,
                   child.session.inflight)
              && parent.bindings == (if last.model == was.model then old(parent.bindings)
                                     else old(parent.bindings)[parent.phase := last.model])
              && parent.activeModel == (if last.model == was.model then old(parent.activeModel) else last.model)
      ensures child.Value() == old(child.Value()).(usage := EMPTY)
      ensures completions == old(completions)
      ensures AtWork(parent, child.session.status) && Current(parent) == (child.session.status != FAILED)
      ensures parent.steps == old(parent.steps) - old(parent.runs)[|old(parent.runs)| - 1].steps + child.session.steps
    {
      hide Durable, StepSum, MergedTotals, Collected;
      PhaseSavedKeeps(parent, child.Value());
      hide AtWork;
      var n := |parent.runs| - 1;
      var record := parent.runs[n];
      record := record.(messages := child.session.messages, status := child.session.status,
        steps := child.session.steps, finalMessage := child.session.finalMessage, inflight := child.session.inflight);
      var bindings, activeModel := parent.bindings, parent.activeModel;
      if child.model != "" && child.model != record.model {
        record := record.(model := child.model);
        activeModel := child.model;
        bindings := bindings[parent.phase := child.model];
      }
      var runs := parent.runs[n := record];
      var left := new LlmUsageTotals(parent.usage);
      var right := new LlmUsageTotals(child.usage);
      var merged := MergeTotals(left, right);
      parent := parent.(runs := runs, bindings := bindings, activeModel := activeModel, steps := StepSum(runs),
        usage := merged.Value());
      child.usage := EMPTY;
      Save();
    }

    /**
     `_run_phase`: one agent run, resumed or new.  It takes no more steps than allotted, it leaves its record last,
     and the usage it adds to the parent is that of its completions, however often it saves.
     */
    method RunPhase(agent: PhaseAgent, n: nat, prompts: seq<Message>) returns (status: Status, message: string)
      requires Valid() && parent.status == ACTIVE && parent.steps < maxSteps
      requires Obedient(agent) && forall m | m in prompts :: m.Prompt?
      modifies this
      ensures Valid() && SameWorkflow(old(parent), parent)
      ensures status != ACTIVE && parent.runs != [] && parent.runs[|parent.runs| - 1].status == status
      ensures var last := parent.runs[|parent.runs| - 1];
              if old(Current(parent)) && old(parent.runs)[|old(parent.runs)| - 1].status == COMPLETED then
                status == COMPLETED && message == if last.finalMessage != "" then last.finalMessage
                  else Argument(last.messages, "summary", Argument(last.messages, "plan", ""))
              else message == last.finalMessage
      ensures parent.runs[|parent.runs| - 1].phase == parent.phase && Current(parent) == (status != FAILED)
      ensures old(parent.steps) <= parent.steps <= old(parent.steps) + Allotment(old(parent), maxSteps, reserve)
      ensures old(parent.phase) == Implementation && old(parent.reviewCycles) == 0 && reserve < maxSteps ==>
                maxSteps - parent.steps >= Min(reserve, maxSteps - old(parent.steps) - 1)
      ensures old(saved) <= saved && old(completions) <= completions
      ensures parent.usage == Collected(old(parent.usage), completions[|old(completions)|..])
    {
      hide Durable, AtWork, SavesOf, Collected, MergedTotals, StepSum, Turns, Current, PhaseSaved, Argument;
      var model := BoundModel();
      parent := parent.(activeModel := model);
      CurrentIsResumable(old(parent), parent);
      assert completions[|completions|..] == [];
      assert Collected(parent.usage, []) == parent.usage by { CollectedStep(parent.usage, []); }
      if Resumable(parent, model) && parent.runs[|parent.runs| - 1].status == COMPLETED {
        var record := parent.runs[|parent.runs| - 1];
        message := record.finalMessage;
        if message == "" {
          message := Argument(record.messages, "summary", Argument(record.messages, "plan", ""));
        }
        return COMPLETED, message;
      }
      if !Resumable(parent, model) {
        NewRecordKeeps(parent, prompts);
        parent := parent.(runs := parent.runs + [Record(parent.phase, model, prompts, ACTIVE, 0, "", "")]);
      }
      status, message := RunAgent(agent, n);
    }

    /** The agent works up to its next save, which counts what it has received and nothing else. */
    method WorkAndSave(child: PhaseChild, shot: Shot)
      requires Valid() && AtWork(parent, shot.session.status) && child.usage == EMPTY
      requires shot.session.steps == Turns(shot.session.messages)
      requires parent.steps - parent.runs[|parent.runs| - 1].steps + shot.session.steps <= maxSteps
      modifies this, child
      ensures Valid() && saved == old(saved) + [parent] && completions == old(completions) + shot.completions
      ensures SameWorkflow(old(parent), parent) && parent.runs != []
      ensures AtWork(parent, shot.session.status) && Current(parent) == (shot.session.status != FAILED)
      ensures child.session == shot.session && child.usage == EMPTY
      ensures var last := parent.runs[|parent.runs| - 1];
              && last.status == shot.session.status && last.steps == shot.session.steps
              && last.finalMessage == shot.session.finalMessage && last.messages == shot.session.messages
              && parent.steps == old(parent.steps) - old(parent.runs)[|old(parent.runs)| - 1].steps + last.steps
      ensures parent.usage == Collected(old(parent.usage), shot.completions)
    {
      hide Durable, Collected, MergedTotals, StepSum, Turns;
      RollUp(parent.usage, shot.completions);
      child.Work(shot);
      completions := completions + shot.completions;
      SavePhase(child);
    }

    /** The save that follows the run of the agent: it finds nothing left to count. */
    method FinalSave(child: PhaseChild)
      requires Valid() && AtWork(parent, child.session.status) && child.usage == EMPTY
      requires child.session.steps == Turns(child.session.messages) && parent.runs != []
      requires parent.runs[|parent.runs| - 1].steps == child.session.steps
      modifies this, child
      ensures Valid() && saved == old(saved) + [parent] && completions == old(completions)
      ensures SameWorkflow(old(parent), parent) && parent.runs != []
      ensures Current(parent) == (child.session.status != FAILED)
      ensures var last := parent.runs[|parent.runs| - 1];
              && last.phase == parent.phase && last.status == child.session.status
              && last.finalMessage == child.session.finalMessage && last.messages == child.session.messages
      ensures parent.steps == old(parent.steps) && parent.usage == old(parent.usage)
      ensures child.session == old(child.session)
    {
      hide Durable, Collected, MergedTotals, StepSum, Turns;
      NothingRolls(parent.usage);
      SavePhase(child);
    }

    /** The agent of the last record runs, saving through the phase store. */
    method RunAgent(agent: PhaseAgent, n: nat) returns (status: Status, message: string)
      requires Valid() && parent.status == ACTIVE && parent.steps < maxSteps && Current(parent)
      requires Obedient(agent)
      modifies this
      ensures Valid() && SameWorkflow(old(parent), parent)
      ensures status != ACTIVE && parent.runs != [] && parent.runs[|parent.runs| - 1].status == status
      ensures parent.runs[|parent.runs| - 1].finalMessage == message
      ensures parent.runs[|parent.runs| - 1].phase == parent.phase && Current(parent) == (status != FAILED)
      ensures old(parent.steps) <= parent.steps <= old(parent.steps) + Allotment(old(parent), maxSteps, reserve)
      ensures old(parent.phase) == Implementation && old(parent.reviewCycles) == 0 && reserve < maxSteps ==>
                maxSteps - parent.steps >= Min(reserve, maxSteps - old(parent.steps) - 1)
      ensures var r, last := old(parent.runs)[|old(parent.runs)| - 1], parent.runs[|parent.runs| - 1];
              var shots := agent(n, Session(r.messages, ACTIVE, r.steps, r.inflight, r.finalMessage),
                                 r.steps + Allotment(old(parent), maxSteps, reserve));
              && |saved| == |old(saved)| + |shots| + 1 && shots != []
              && last.messages == shots[|shots| - 1].session.messages
              && status == last.status == shots[|shots| - 1].session.status
              && message == shots[|shots| - 1].session.finalMessage
      ensures old(saved) <= saved && old(completions) <= completions
      ensures parent.usage == Collected(old(parent.usage), completions[|old(completions)|..])
    {
      hide Durable, SavesOf, Collected, MergedTotals, StepSum, Turns;
      var record := parent.runs[|parent.runs| - 1];
      CountedRecord(parent);
      hide AtWork, Current, PhaseSaved;
      StartsWork(parent, ACTIVE);
      var child := Session(record.messages, ACTIVE, record.steps, record.inflight, record.finalMessage);
      var limit := child.steps + Allotment(parent, maxSteps, reserve);
      var shots := agent(n, child, limit);
      SomeShots(child, limit, shots);
      var phaseChild := new PhaseChild(child, record.model);
      assert completions[|completions|..] == [];
      assert Collected(parent.usage, []) == parent.usage by { CollectedStep(parent.usage, []); }
      for i := 0 to |shots|
        invariant Valid() && SameWorkflow(old(parent), parent)
                  && AtWork(parent, if i == 0 then ACTIVE else shots[i - 1].session.status)
        invariant parent.runs != [] && (i < |shots| ==> Current(parent))
        invariant i > 0 ==> Current(parent) == (shots[i - 1].session.status != FAILED)
        invariant i > 0 ==> phaseChild.session == shots[i - 1].session
        invariant var last := parent.runs[|parent.runs| - 1];
                  && parent.steps == old(parent.steps) - record.steps + last.steps
                  && (if i == 0 then last == record else last.status == shots[i - 1].session.status)
                  && record.steps <= last.steps <= limit
                  && (i > 0 ==> last.steps == shots[i - 1].session.steps)
        invariant |saved| == |old(saved)| + i
        invariant old(saved) <= saved && old(completions) <= completions
        invariant parent.usage == Collected(old(parent.usage), completions[|old(completions)|..])
        invariant fresh(phaseChild) && phaseChild.usage == EMPTY
      {
        ShotFacts(child, limit, shots, i);
        ghost var counted := completions[|old(completions)|..];
        CollectedMore(old(parent.usage), counted, shots[i].completions);
        assert (completions + shots[i].completions)[|old(completions)|..] == counted + shots[i].completions;
        StartsWork(parent, shots[i].session.status);
        WorkAndSave(phaseChild, shots[i]);
      }
      var end := shots[|shots| - 1];
      ShotFacts(child, limit, shots, |shots| - 1);
      NothingRolls(parent.usage);
      FinalSave(phaseChild);
      return end.session.status, end.session.finalMessage;
    }

    /**
     `_run_feature`: runs phases until the workflow completes, fails, pauses or uses up its steps.  It always stops:
     rework cycles are bounded, each cycle goes down the phases, and a review that is resumed at once has used steps.
     It completes only with an approved review.
     */
    method RunFeature(agent: PhaseAgent, prompts: seq<Message>)
      requires Valid() && parent.status in {ACTIVE, PAUSED} && completions == []
      requires Obedient(agent) && forall m | m in prompts :: m.Prompt?
      modifies this
      ensures Valid() && parent == stored && parent.status != ACTIVE
      ensures EndsProperly(parent, maxSteps)
      ensures old(parent.steps) <= parent.steps <= maxSteps
      ensures old(saved) <= saved
      ensures parent.usage == Collected(old(parent.usage), completions)
    {
      hide Durable, Collected, Approves, Current, Strip, Argument, Artifact, SavesOf, EndsProperly;
      var n := 0;
      assert Collected(parent.usage, []) == parent.usage by { CollectedStep(parent.usage, []); }
      while parent.steps < maxSteps
        invariant Valid() && parent.status in {ACTIVE, PAUSED}
        invariant old(parent.steps) <= parent.steps && old(saved) <= saved
        invariant parent.usage == Collected(old(parent.usage), completions)
        decreases parent.maxReviewCycles - parent.reviewCycles, Rank(parent.phase), maxSteps - parent.steps
      {
        ghost var was := completions;
        var stepsBefore := parent.steps;
        ReviewHasSubject(parent);
        OtherKeeps(parent, parent.(status := ACTIVE));
        parent := parent.(status := ACTIVE);
        var status, message := RunPhase(agent, n, prompts);
        n := n + 1;
        UsageAdds(old(parent.usage), was, completions);
        var ended := Proceed(status, message, stepsBefore);
        if ended {
          return;
        }
      }
      ReviewHasSubject(parent);
      PausesProperly(parent, "Step budget exhausted.", maxSteps);
      End(PAUSED, "Step budget exhausted.");
    }

    /** What follows a phase: the workflow ends, or it goes on and comes closer to its end. */
    method Proceed(status: Status, message: string, stepsBefore: nat) returns (ended: bool)
      requires Valid() && parent.status == ACTIVE && status != ACTIVE && Current(parent) == (status != FAILED)
      requires parent.runs != [] && parent.runs[|parent.runs| - 1].status == status
      requires parent.runs[|parent.runs| - 1].phase == parent.phase
      requires status != COMPLETED || parent.runs[|parent.runs| - 1].finalMessage != "" ==>
                 message == parent.runs[|parent.runs| - 1].finalMessage
      modifies this
      ensures Valid() && old(saved) <= saved && completions == old(completions)
      ensures parent.steps == old(parent.steps) && parent.usage == old(parent.usage)
      ensures ended ==> parent == stored && parent.status != ACTIVE && EndsProperly(parent, maxSteps)
      ensures !ended ==>
                && parent.status == ACTIVE && parent.maxReviewCycles == old(parent.maxReviewCycles)
                && parent.reviewCycles <= parent.maxReviewCycles
                && (|| parent.reviewCycles > old(parent.reviewCycles)
                    || (parent.reviewCycles == old(parent.reviewCycles) && Rank(parent.phase) < Rank(old(parent.phase)))
                    || (parent == old(parent) && parent.phase == Review && stepsBefore < parent.steps))
    {
      hide Durable, EndsProperly, Approves, Strip;
      CyclesBounded(parent);
      if status == PAUSED {
        var resumed := PauseOrResume(message, stepsBefore);
        return !resumed;
      }
      if status == FAILED {
        FailsProperly(parent, message, maxSteps);
        Fail(message);
        return true;
      }
      ended := FinishPhase(message);
    }

    /**
     A paused review that has used steps, and has some left, is resumed at once; anything else pauses the workflow.
     */
    method PauseOrResume(message: string, stepsBefore: nat) returns (resumed: bool)
      requires Valid() && Current(parent) && parent.runs[|parent.runs| - 1].status == PAUSED
      requires message == parent.runs[|parent.runs| - 1].finalMessage
      modifies this
      ensures Valid() && old(saved) <= saved && completions == old(completions)
      ensures resumed == (parent.phase == Review && stepsBefore < parent.steps < maxSteps)
      ensures resumed ==> parent == old(parent)
      ensures !resumed ==>
                && parent == stored == old(parent).(status := PAUSED, finalMessage := message)
                && EndsProperly(parent, maxSteps)
    {
      hide Durable, Strip, Artifact;
      ReviewHasSubject(parent);
      if parent.phase == Review && Strip(Artifact(parent.artifacts, "implementation")) != ""
         && parent.steps < maxSteps && parent.steps > stepsBefore {
        return true;
      }
      PausesProperly(parent, message, maxSteps);
      End(PAUSED, message);
      return false;
    }

    /** `run`: a workflow that has completed or failed is left alone. */
    method Run(agent: PhaseAgent, prompts: seq<Message>)
      requires Valid() && Obedient(agent) && forall m | m in prompts :: m.Prompt?
      modifies this
      ensures Valid() && old(saved) <= saved && old(parent.steps) <= parent.steps
      ensures old(parent.status) in {COMPLETED, FAILED} ==> parent == old(parent) && saved == old(saved)
      ensures old(parent.status) !in {COMPLETED, FAILED} ==>
                parent == stored && parent.status != ACTIVE && parent.usage == Collected(old(parent.usage), completions)
    {
      hide Durable, Collected, SavesOf;
      completions := [];
      if parent.status in {COMPLETED, FAILED} {
        return;
      }
      assert parent.status.ACTIVE? || parent.status.PAUSED?;
      RunFeature(agent, prompts);
    }

    /** What the coordinator makes of a completed phase: the next phase, or the end of the workflow. */
    method FinishPhase(message: string) returns (ended: bool)
      requires Valid() && parent.status == ACTIVE && Current(parent)
               && parent.runs[|parent.runs| - 1].status == COMPLETED
      requires parent.runs[|parent.runs| - 1].finalMessage != "" ==>
                 message == parent.runs[|parent.runs| - 1].finalMessage
      modifies this
      ensures Valid() && parent == stored && old(saved) <= saved
      ensures ended ==> parent.status in {COMPLETED, FAILED}
      ensures ended ==> EndsProperly(parent, maxSteps) && parent.runs == old(parent.runs)
      ensures parent.status == COMPLETED <==> Approves(old(parent.runs)[|old(parent.runs)| - 1])
      ensures var last := old(parent.runs)[|old(parent.runs)| - 1];
              ended <==> match old(parent.phase)
                         case Planning => Strip(Argument(last.messages, "plan", message)) == ""
                         case Implementation => Strip(Argument(last.messages, "summary", message)) == ""
                         case Review => !(Requests(last) && old(parent.reviewCycles) < old(parent.maxReviewCycles))
      ensures !ended ==> MovesOn(old(parent), parent) && parent.maxReviewCycles == old(parent.maxReviewCycles)
      ensures !ended ==>
                var last, was := old(parent.runs)[|old(parent.runs)| - 1], old(parent.artifacts);
                parent.artifacts ==
                match old(parent.phase)
                case Planning => was["plan" := Strip(Argument(last.messages, "plan", message))]
                case Implementation => was["implementation" := Strip(Argument(last.messages, "summary", message))]
                case Review =>
                  var summary := Strip(Argument(last.messages, "summary", ""));
                  was["review" := summary]["review_feedback" := summary]
      ensures !ended ==> parent.reviewCycles > old(parent.reviewCycles)
                         || (parent.reviewCycles == old(parent.reviewCycles)
                           && Rank(parent.phase) < Rank(old(parent.phase)))
      ensures parent.steps == old(parent.steps) && parent.usage == old(parent.usage) && completions == old(completions)
    {
      hide Durable, Strip, Argument, Collected, Artifact, EndsProperly, Disappoints, Complaint, Missing, Approves,
        Requests, MovesOn, Valid, Current;
      CurrentRun(parent);
      OnlyReviewsApprove(parent.runs[|parent.runs| - 1]);
      match parent.phase {
        case Planning => ended := FinishPlanning(message);
        case Implementation => ended := FinishImplementation(message);
        case Review => ended := FinishReview();
      }
    }

    method FinishPlanning(message: string) returns (ended: bool)
      requires Valid() && parent.status == ACTIVE && Current(parent) && parent.phase == Planning
               && parent.runs[|parent.runs| - 1].status == COMPLETED
      requires parent.runs[|parent.runs| - 1].finalMessage != "" ==>
                 message == parent.runs[|parent.runs| - 1].finalMessage
      modifies this
      ensures Valid() && parent == stored && old(saved) <= saved && completions == old(completions)
      ensures var plan := Strip(Argument(old(parent.runs)[|old(parent.runs)| - 1].messages, "plan", message));
              if plan == "" then
                && ended && EndsProperly(parent, maxSteps)
                && parent == old(parent).(status := FAILED, finalMessage := "planning agent returned no plan",
                     artifacts := parent.artifacts)
              else
                && !ended && MovesOn(old(parent), parent)
                && parent == old(parent).(phase := Implementation, artifacts := old(parent.artifacts)["plan" := plan])
    {
      hide Durable, Strip, Argument, Collected, Artifact, EndsProperly, Disappoints, Complaint, Missing, Approves,
        Requests, MovesOn, Valid, Current;
      Sane();
      CurrentRun(parent);
      var record := parent.runs[|parent.runs| - 1];
      var plan := Strip(Argument(record.messages, "plan", message));
      if plan == "" {
        MissingAnyway(record.messages, "plan", message, record.finalMessage);
        WordMissing(parent, record);
        DisappointsProperly(parent, record, maxSteps);
        Fail("planning agent returned no plan");
        return true;
      }
      var next := parent.(artifacts := parent.artifacts["plan" := plan], phase := Implementation);
      PlanMoves(parent, next);
      MoveOn(next);
      return false;
    }

    method FinishImplementation(message: string) returns (ended: bool)
      requires Valid() && parent.status == ACTIVE && Current(parent) && parent.phase == Implementation
               && parent.runs[|parent.runs| - 1].status == COMPLETED
      requires parent.runs[|parent.runs| - 1].finalMessage != "" ==>
                 message == parent.runs[|parent.runs| - 1].finalMessage
      modifies this
      ensures Valid() && parent == stored && old(saved) <= saved && completions == old(completions)
      ensures var summary := Strip(Argument(old(parent.runs)[|old(parent.runs)| - 1].messages, "summary", message));
              if summary == "" then
                && ended && EndsProperly(parent, maxSteps)
                && parent == old(parent).(status := FAILED, finalMessage := "implementation agent returned no summary",
                     artifacts := parent.artifacts)
              else
                && !ended && MovesOn(old(parent), parent)
                && parent == old(parent).(phase := Review,
                     artifacts := old(parent.artifacts)["implementation" := summary])
    {
      hide Durable, Strip, Argument, Collected, Artifact, EndsProperly, Disappoints, Complaint, Missing, Approves,
        Requests, MovesOn, Valid, Current;
      Sane();
      CurrentRun(parent);
      var record := parent.runs[|parent.runs| - 1];
      var summary := Strip(Argument(record.messages, "summary", message));
      if summary == "" {
        MissingAnyway(record.messages, "summary", message, record.finalMessage);
        WordMissing(parent, record);
        DisappointsProperly(parent, record, maxSteps);
        Fail("implementation agent returned no summary");
        return true;
      }
      StripAgain(Argument(record.messages, "summary", message));
      var next := parent.(artifacts := parent.artifacts["implementation" := summary], phase := Review);
      ImplementationMoves(parent, next, summary);
      MoveOn(next);
      return false;
    }

    method FinishReview() returns (ended: bool)
      requires Valid() && parent.status == ACTIVE && Current(parent)
               && parent.runs[|parent.runs| - 1].status == COMPLETED
      requires parent.phase == Review
      modifies this
      ensures Valid() && parent == stored && old(saved) <= saved
      ensures ended ==> parent.status in {COMPLETED, FAILED}
      ensures ended ==> EndsProperly(parent, maxSteps) && parent.runs == old(parent.runs)
      ensures parent.status == COMPLETED <==> Approves(old(parent.runs)[|old(parent.runs)| - 1])
      ensures ended <==> !(Requests(old(parent.runs)[|old(parent.runs)| - 1])
                           && old(parent.reviewCycles) < old(parent.maxReviewCycles))
      ensures !ended ==>
                var summary := Strip(Argument(old(parent.runs)[|old(parent.runs)| - 1].messages, "summary", ""));
                parent.artifacts == old(parent.artifacts)["review" := summary]["review_feedback" := summary]
      ensures !ended ==> MovesOn(old(parent), parent) && parent.maxReviewCycles == old(parent.maxReviewCycles)
                         && parent.reviewCycles > old(parent.reviewCycles)
      ensures parent.steps == old(parent.steps) && parent.usage == old(parent.usage) && completions == old(completions)
    {
      hide Durable, Strip, Argument, Collected, Artifact, EndsProperly, Disappoints, Complaint, Approves, Requests,
        MovesOn, Decimal, Current, Valid;
      ghost var was := parent;
      CurrentRun(parent);
      var record := parent.runs[|parent.runs| - 1];
      ReviewDisappoints(parent, record);
      var verdict := Argument(record.messages, "verdict", "");
      var summary := Strip(Argument(record.messages, "summary", ""));
      if verdict !in {"approved", "changes_requested"} {
        DisappointsProperly(parent, record, maxSteps);
        Fail("review agent did not return a structured verdict");
        return true;
      }
      if summary == "" {
        DisappointsProperly(parent, record, maxSteps);
        Fail("review agent returned an empty review summary");
        return true;
      }
      NoteReview(summary);
      ended := Conclude(verdict, summary);
      MovesFrom(was, parent, was.artifacts["review" := summary]);
    }

    /** What holds of the parent at the end of a phase. */
    lemma Sane()
      requires Valid()
      ensures parent.phase == Review ==> Strip(Artifact(parent.artifacts, "implementation")) != ""
      ensures parent.reviewCycles <= parent.maxReviewCycles && (parent.phase == Planning ==> parent.reviewCycles == 0)
    {
      hide Durable;
      ReviewHasSubject(parent);
      CyclesBounded(parent);
    }

    method NoteReview(summary: string)
      requires Valid() && parent.status == ACTIVE && parent.phase == Review
      modifies this
      ensures Valid() && parent == old(parent).(artifacts := old(parent.artifacts)["review" := summary])
      ensures Current(parent) == old(Current(parent)) && saved == old(saved) && completions == old(completions)
    {
      hide Durable, Strip, Artifact;
      ReviewHasSubject(parent);
      OtherArtifact(parent.artifacts, "review", summary);
      OtherKeeps(parent, parent.(artifacts := parent.artifacts["review" := summary]));
      parent := parent.(artifacts := parent.artifacts["review" := summary]);
    }

    /** What a review with a verdict and a summary leads to. */
    method Conclude(verdict: string, summary: string) returns (ended: bool)
      requires Valid() && parent.status == ACTIVE && Current(parent) && parent.phase == Review
      requires var record := parent.runs[|parent.runs| - 1];
               && record.status == COMPLETED && verdict == Argument(record.messages, "verdict", "")
               && summary == Strip(Argument(record.messages, "summary", "")) && summary != ""
               && verdict in {"approved", "changes_requested"}
      modifies this
      ensures Valid() && parent == stored && old(saved) <= saved && parent.runs == old(parent.runs)
      ensures parent.status == if verdict == "approved" then COMPLETED else if ended then FAILED else ACTIVE
      ensures ended ==> EndsProperly(parent, maxSteps)
      ensures ended <==> verdict == "approved" || old(parent.reviewCycles) >= old(parent.maxReviewCycles)
      ensures !ended ==> parent.artifacts == old(parent.artifacts)["review_feedback" := summary]
      ensures !ended ==> MovesOn(old(parent), parent) && parent.maxReviewCycles == old(parent.maxReviewCycles)
                         && parent.reviewCycles > old(parent.reviewCycles)
      ensures parent.steps == old(parent.steps) && parent.usage == old(parent.usage) && completions == old(completions)
    {
      hide Durable, Strip, Argument, Collected, Artifact, EndsProperly, Disappoints, Complaint, Approves, Requests,
        MovesOn, Decimal, Valid;
      var record := parent.runs[|parent.runs| - 1];
      ReviewDisappoints(parent, record);
      Sane();
      if verdict == "approved" {
        CompletesProperly(parent, summary, maxSteps);
        End(COMPLETED, summary);
        return true;
      }
      if parent.reviewCycles >= parent.maxReviewCycles {
        DisappointsProperly(parent, record, maxSteps);
        Fail("review still requested changes after " + Decimal(parent.maxReviewCycles) + " rework cycles: " + summary);
        return true;
      }
      var next := parent.(reviewCycles := parent.reviewCycles + 1,
        artifacts := parent.artifacts["review_feedback" := summary], phase := Implementation);
      ReworkMoves(parent, next, summary);
      MoveOn(next);
      return false;
    }

    method MoveOn(next: Parent)
      requires Valid() && MovesOn(parent, next)
      modifies this
      ensures Valid() && parent == stored == next && old(saved) <= saved && completions == old(completions)
    {
      hide Durable;
      MovingOnKeeps(parent, next);
      parent := next;
      Save();
    }

    method Fail(message: string)
      requires Valid()
      modifies this
      ensures Valid() && parent == stored && old(saved) <= saved && completions == old(completions)
      ensures parent == old(parent).(status := FAILED, finalMessage := message,
              artifacts := old(parent.artifacts)["error" := message])
    {
      hide Durable, Strip, Artifact;
      ReviewHasSubject(parent);
      OtherArtifact(parent.artifacts, "error", message);
      OtherKeeps(parent, parent.(status := FAILED, finalMessage := message,
        artifacts := parent.artifacts["error" := message]));
      parent := parent.(status := FAILED, finalMessage := message, artifacts := parent.artifacts["error" := message]);
      Save();
    }

    method End(final: Status, message: string)
      requires Valid() && final in {COMPLETED, PAUSED}
      requires parent.phase == Review ==> Strip(Artifact(parent.artifacts, "implementation")) != ""
      requires final == COMPLETED ==> Current(parent) && Approves(parent.runs[|parent.runs| - 1])
      modifies this
      ensures Valid() && parent == stored && old(saved) <= saved && completions == old(completions)
      ensures parent == old(parent).(status := final, finalMessage := message)
    {
      hide Durable, Approves, Strip;
      OtherKeeps(parent, parent.(status := final, finalMessage := message));
      parent := parent.(status := final, finalMessage := message);
      Save();
    }

    method BoundModel() returns (model: string)
      requires Valid()
      ensures parent.phase in parent.bindings && model == parent.bindings[parent.phase]
    {
      BoundPhase(parent);
      model := parent.bindings[parent.phase];
    }
  }

  /** A phase with a current run is ready for any save. */
  lemma StartsWork(p: Parent, next: Status)
    requires Durable(p) && p.status == ACTIVE && Current(p)
    ensures AtWork(p, next) && p.runs != [] && p.runs[|p.runs| - 1].phase == p.phase
  {
    hide Durable;
  }

  lemma CountedRecord(p: Parent)
    requires Durable(p) && p.runs != []
    ensures var r := p.runs[|p.runs| - 1]; r.steps == Turns(r.messages)
  {
    hide OnSchedule, StepSum, Approves, Strip, Turns;
    assert TurnsCounted(p.runs[|p.runs| - 1]);
  }

  lemma BoundPhase(p: Parent)
    requires Durable(p)
    ensures p.phase in p.bindings
  {
    hide OnSchedule, StepSum, TurnsCounted, Approves, Strip;
  }

  /** The record of the current phase is resumable, because its model is the bound one. */
  lemma CurrentIsResumable(p: Parent, q: Parent)
    requires Durable(p) && p.phase in p.bindings && q == p.(activeModel := q.activeModel) && p.status == ACTIVE
    ensures Durable(q) && Resumable(q, p.bindings[p.phase]) == Current(q) && Current(p) == Current(q)
  {
    hide Kept, StepSum, TurnsCounted, Approves, Strip, Schedule;
  }

  lemma ReviewHasSubject(p: Parent)
    requires Durable(p)
    ensures p.phase == Review ==> Strip(Artifact(p.artifacts, "implementation")) != ""
  {
    hide OnSchedule, StepSum, TurnsCounted, Approves, Strip, Artifact;
  }

  lemma SetArtifact(artifacts: map<string, string>, name: string, value: string)
    ensures Artifact(artifacts[name := value], name) == value
  {
  }

  lemma OtherArtifact(artifacts: map<string, string>, name: string, value: string)
    requires name != "implementation"
    ensures Artifact(artifacts[name := value], "implementation") == Artifact(artifacts, "implementation")
  {
  }

  lemma CyclesBounded(p: Parent)
    requires Durable(p)
    ensures p.reviewCycles <= p.maxReviewCycles && (p.phase == Planning ==> p.reviewCycles == 0)
  {
    hide Kept, StepSum, TurnsCounted, Approves, Strip, Artifact;
  }

  lemma PausesProperly(p: Parent, message: string, maxSteps: nat)
    requires || (p.steps >= maxSteps && message == "Step budget exhausted.")
             || (&& Current(p) && p.runs[|p.runs| - 1].status == PAUSED
                 && message == p.runs[|p.runs| - 1].finalMessage)
    ensures EndsProperly(p.(status := PAUSED, finalMessage := message), maxSteps)
  {
  }

  lemma FailsProperly(p: Parent, message: string, maxSteps: nat)
    requires p.runs != [] && p.runs[|p.runs| - 1].phase == p.phase && p.runs[|p.runs| - 1].status == FAILED
    requires message == p.runs[|p.runs| - 1].finalMessage
    ensures EndsProperly(p.(status := FAILED, finalMessage := message, artifacts := p.artifacts["error" := message]),
            maxSteps)
  {
  }

  /** What is blank with one word to fall back on is blank with no other word. */
  lemma MissingAnyway(messages: seq<Message>, name: string, otherwise: string, last: string)
    requires last != "" ==> otherwise == last
    ensures Strip(Argument(messages, name, otherwise)) == "" ==> Missing(messages, name, last)
  {
    assert Strip("") == "";
  }

  lemma WordMissing(p: Parent, r: Record)
    requires p.phase != Review
    ensures Missing(r.messages, if p.phase == Planning then "plan" else "summary", r.finalMessage) ==> Disappoints(p, r)
    ensures Complaint(p, r) ==
            if p.phase == Planning then "planning agent returned no plan"
            else "implementation agent returned no summary"
  {
    hide Missing, Argument, Strip;
  }

  lemma ReviewDisappoints(p: Parent, r: Record)
    requires p.phase == Review == r.phase && r.status == COMPLETED
    ensures Disappoints(p, r) <==> !Approves(r) && (Requests(r) ==> p.reviewCycles >= p.maxReviewCycles)
    ensures var verdict, summary := Argument(r.messages, "verdict", ""), Strip(Argument(r.messages, "summary", ""));
            && (Approves(r) <==> verdict == "approved" && summary != "")
            && (Requests(r) <==> verdict == "changes_requested" && summary != "")
            && Complaint(p, r) ==
               if verdict != "approved" && verdict != "changes_requested" then
                 "review agent did not return a structured verdict"
               else if summary == "" then "review agent returned an empty review summary"
               else "review still requested changes after " + Decimal(p.maxReviewCycles) + " rework cycles: " + summary
  {
    hide Argument, Strip;
  }

  lemma DisappointsProperly(p: Parent, r: Record, maxSteps: nat)
    requires p.runs != [] && r == p.runs[|p.runs| - 1] && r.phase == p.phase && r.status == COMPLETED
    ensures var message := Complaint(p, r);
            Disappoints(p, r) ==>
            EndsProperly(p.(status := FAILED, finalMessage := message, artifacts := p.artifacts["error" := message]),
              maxSteps)
  {
    hide Argument, Strip;
  }

  lemma PlanMoves(p: Parent, next: Parent)
    requires Current(p) && p.runs[|p.runs| - 1].status == COMPLETED && p.status == ACTIVE && p.phase == Planning
    requires p.reviewCycles == 0 && next == p.(artifacts := next.artifacts, phase := Implementation)
    ensures MovesOn(p, next)
  {
    hide Artifact, Strip;
  }

  lemma ImplementationMoves(p: Parent, next: Parent, summary: string)
    requires Current(p) && p.runs[|p.runs| - 1].status == COMPLETED && p.status == ACTIVE && p.phase == Implementation
    requires p.reviewCycles <= p.maxReviewCycles
    requires next == p.(artifacts := p.artifacts["implementation" := summary], phase := Review)
    ensures Strip(summary) != "" ==> MovesOn(p, next)
  {
    SetArtifact(p.artifacts, "implementation", summary);
    hide Artifact, Strip;
  }

  lemma ReworkMoves(p: Parent, next: Parent, summary: string)
    requires Current(p) && p.runs[|p.runs| - 1].status == COMPLETED && p.status == ACTIVE && p.phase == Review
    requires p.reviewCycles < p.maxReviewCycles
    requires next == p.(reviewCycles := p.reviewCycles + 1, artifacts := p.artifacts["review_feedback" := summary],
                        phase := Implementation)
    ensures MovesOn(p, next)
  {
    hide Artifact, Strip;
  }

  lemma OnlyReviewsApprove(r: Record)
    ensures Approves(r) ==> r.phase == Review
  {
    hide Argument, Strip;
  }

  lemma CurrentRun(p: Parent)
    requires Current(p)
    ensures p.runs != [] && p.runs[|p.runs| - 1].phase == p.phase
  {
  }

  /** An artifact more makes no difference to where a workflow moves. */
  lemma MovesFrom(was: Parent, next: Parent, artifacts: map<string, string>)
    ensures MovesOn(was.(artifacts := artifacts), next) ==> MovesOn(was, next)
  {
    hide Artifact, Strip;
  }

  lemma CompletesProperly(p: Parent, message: string, maxSteps: nat)
    requires Current(p) && Approves(p.runs[|p.runs| - 1])
    requires message == Strip(Argument(p.runs[|p.runs| - 1].messages, "summary", ""))
    ensures EndsProperly(p.(status := COMPLETED, finalMessage := message), maxSteps)
  {
    hide Argument, Strip, Approves;
  }

  lemma StripAgain(s: string)
    ensures Strip(s) != "" ==> Strip(Strip(s)) != ""
  {
    StripIsTight(s);
    if Strip(s) != "" {
      StripTight(Strip(s));
    }
  }

  lemma UsageAdds(start: Totals, a: seq<LlmUsage>, b: seq<LlmUsage>)
    requires a <= b
    ensures Collected(Collected(start, a), b[|a|..]) == Collected(start, b)
  {
    assert a + b[|a|..] == b;
    CollectedMore(start, a, b[|a|..]);
  }

  /** A new workflow is a state to start from. */
  lemma NewWorkflow(task: string, bindings: map<Phase, string>, maxReviewCycles: nat)
    requires bindings.Keys == {Planning, Implementation, Review}
    ensures Durable(Parent(task, ACTIVE, Planning, 0, maxReviewCycles, bindings, map[], [], 0, "", EMPTY, ""))
  {
  }
}
