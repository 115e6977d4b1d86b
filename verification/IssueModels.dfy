/**
 The tables of the issue-session database and their unique indexes (src/gca/issue_sessions/models.py,
 src/gca/issue_sessions/store.py).  Ids are drawn from a counter that belongs to the database.
 */
module IssueModels {
  import opened Wrappers

  type Id = nat

  datatype GenerationStatus =
    | QUEUED | RUNNING | WAITING_HUMAN | PUBLISHING | AWAITING_MERGE | COMPLETED | FAILED | CANCELLED

  datatype TurnStatus = QueuedTurn | RunningTurn | PausedBudget | SucceededTurn | FailedTurn | CancelledTurn

  datatype WaitReason =
    | CLARIFICATION | NO_SAFE_CHANGE | BUDGET_EXHAUSTED | REMEDIATION_EXHAUSTED | MR_CLOSED
    | EXTERNAL_CHANGE | AMBIGUOUS_SIDE_EFFECT | PERMISSION_BLOCKER | LOST_FENCING

  datatype MergeReason = MANAGED | EXTERNAL_MUTATION

  /** One GitLab issue. */
  datatype IssueKey = IssueKey(instance: string, project: int, issueIid: int)

  datatype IssueSession = IssueSession(
    id: Id, key: IssueKey, projectPath: string, title: string, repositoryUrl: string, registration: string,
    triggerLabel: string, status: GenerationStatus, active: Option<Id>, version: nat)

  datatype IssueGeneration = IssueGeneration(
    id: Id, session: Id, status: GenerationStatus, waitReason: Option<WaitReason>, targetBranch: string,
    maxSteps: nat, remediationAttempts: nat, question: Option<Id>, summary: string, mergeReason: Option<MergeReason>,
    leaseEpoch: nat, cancelRequested: bool, restartOf: Option<Id>, version: nat)

  /** What queued a turn: a start or a later event, a failed pipeline, or an operator through the service's routes. */
  datatype TurnOrigin = FirstTurn | FollowUp(event: Id) | Pipeline | Operator {
    predicate FromEvent() {
      FirstTurn? || FollowUp?
    }
  }

  datatype Turn = Turn(
    id: Id, session: Id, generation: Id, kind: string, status: TurnStatus, job: Option<Id>, maxSteps: nat,
    leaseEpoch: nat, question: Option<Id>, origin: TurnOrigin, version: nat)

  /** The job row of a turn; its idempotency key is `turn:` and the turn's id. */
  datatype TurnJob = TurnJob(
    id: Id, turn: Id, session: Id, generation: Id, repositoryUrl: string, targetBranch: string, maxSteps: nat,
    leaseEpoch: nat, cancelRequested: bool)

  datatype ActionKey = ActionKey(project: int, objectKey: string, action: string)

  datatype InboundEvent = InboundEvent(
    id: Id, delivery: string, key: ActionKey, session: Option<Id>, generation: Option<Id>, authorized: bool,
    reason: string, consumedBy: Option<Id>)

  datatype ScmLink = ScmLink(session: Id, generation: Id, targetProject: int, mrIid: Option<int>, expectedHead: string)

  datatype EffectKey =
    | AckNote(session: Id, generation: Id)
    | StatusNote(session: Id, delivery: string)
    | ExhaustedNote(session: Id, generation: Id)

  datatype OutboundAction = OutboundAction(session: Id, generation: Id, turn: Option<Id>)

  datatype SessionEvent = SessionEvent(session: Id, generation: Option<Id>, turn: Option<Id>, seqNo: nat, kind: string)

  /**
   `issues`, `deliveries`, `actions`, `activeTurns` and `jobOfTurn` are the unique indexes; `links` stands in the
   order of their last update.
   */
  datatype Database = Database(
    nextId: Id,
    sessions: map<Id, IssueSession>, issues: map<IssueKey, Id>,
    generations: map<Id, IssueGeneration>,
    turns: map<Id, Turn>, activeTurns: map<Id, Id>,
    jobs: map<Id, TurnJob>, jobOfTurn: map<Id, Id>,
    inbound: map<Id, InboundEvent>, deliveries: map<string, Id>, actions: map<ActionKey, Id>,
    links: seq<ScmLink>,
    outbound: map<EffectKey, OutboundAction>,
    events: seq<SessionEvent>)

  const EMPTY := Database(0, map[], map[], map[], map[], map[], map[], map[], map[], map[], map[], [], map[], [])

  predicate IsActive(status: TurnStatus) {
    status in {QueuedTurn, RunningTurn, PausedBudget}
  }

  /** The link of a merge request that was updated last. */
  function LinkOfMergeRequest(links: seq<ScmLink>, project: int, mrIid: int): Option<ScmLink> {
    if links == [] then None
    else
      var last := links[|links| - 1];
      if last.targetProject == project && last.mrIid == Some(mrIid) then Some(last)
      else LinkOfMergeRequest(links[..|links| - 1], project, mrIid)
  }

  function LinkOfGeneration(links: seq<ScmLink>, generation: Id): Option<ScmLink> {
    if links == [] then None
    else if links[0].generation == generation then Some(links[0])
    else LinkOfGeneration(links[1..], generation)
  }

  function LastSeq(events: seq<SessionEvent>, session: Id): nat {
    if events == [] then 0
    else
      var before := LastSeq(events[1..], session);
      if events[0].session == session && events[0].seqNo > before then events[0].seqNo else before
  }

  function Logged(events: seq<SessionEvent>, session: Id, generation: Option<Id>, turn: Option<Id>, kind: string)
      : seq<SessionEvent> {
    events + [SessionEvent(session, generation, turn, LastSeq(events, session) + 1, kind)]
  }

  // ---------------------------------------------------------------- what holds between transactions

  predicate SessionsSound(sessions: map<Id, IssueSession>, issues: map<IssueKey, Id>) {
    && (forall id | id in sessions ::
            sessions[id].id == id && sessions[id].key in issues
            && issues[sessions[id].key] == id)
    && (forall key | key in issues :: issues[key] in sessions && sessions[issues[key]].key == key)
  }

  /** Every session has an active generation of its own. */
  predicate GenerationsSound(sessions: map<Id, IssueSession>, generations: map<Id, IssueGeneration>) {
    && (forall g | g in generations :: generations[g].id == g && generations[g].session in sessions)
    && (forall id | id in sessions ::
          && sessions[id].active.Some? && sessions[id].active.value in generations
          && generations[sessions[id].active.value].session == id)
  }

  /** The index of active turns is exact, so a generation has at most one. */
  predicate TurnsSound(turns: map<Id, Turn>, active: map<Id, Id>, generations: map<Id, IssueGeneration>) {
    && (forall t | t in turns ::
          && turns[t].id == t && turns[t].generation in generations
          && (IsActive(turns[t].status) ==> turns[t].generation in active && active[turns[t].generation] == t))
    && (forall g | g in active ::
            active[g] in turns && turns[active[g]].generation == g
            && IsActive(turns[active[g]].status))
  }

  /** Turns and jobs correspond one to one. */
  predicate JobsSound(turns: map<Id, Turn>, jobs: map<Id, TurnJob>, jobOfTurn: map<Id, Id>) {
    && turns.Keys == jobOfTurn.Keys
    && (forall t | t in jobOfTurn ::
            jobOfTurn[t] in jobs && jobs[jobOfTurn[t]].turn == t
            && turns[t].job == Some(jobOfTurn[t]))
    && (forall j | j in jobs :: jobs[j].turn in jobOfTurn && jobOfTurn[jobs[j].turn] == j)
  }

  predicate InboundSound(inbound: map<Id, InboundEvent>, deliveries: map<string, Id>, actions: map<ActionKey, Id>) {
    && (forall e | e in inbound ::
          && inbound[e].id == e
          && inbound[e].delivery in deliveries && deliveries[inbound[e].delivery] == e
          && inbound[e].key in actions && actions[inbound[e].key] == e)
    && (forall d | d in deliveries :: deliveries[d] in inbound && inbound[deliveries[d]].delivery == d)
  }

  predicate Consumes(turns: map<Id, Turn>, inbound: map<Id, InboundEvent>, t: Id, e: Id) {
    e in inbound && inbound[e].consumedBy == Some(t)
  }

  /** A turn that an event queued consumes exactly that event; any other turn consumes none. */
  ghost predicate ConsumptionSound(turns: map<Id, Turn>, inbound: map<Id, InboundEvent>) {
    && (forall e | e in inbound && inbound[e].consumedBy.Some? ::
          inbound[e].consumedBy.value in turns && turns[inbound[e].consumedBy.value].origin.FromEvent())
    && (forall t, e, f | Consumes(turns, inbound, t, e) && Consumes(turns, inbound, t, f) :: e == f)
    && (forall t | t in turns && turns[t].origin.FromEvent() :: exists e :: Consumes(turns, inbound, t, e))
    && (forall t | t in turns && turns[t].origin.FollowUp? :: Consumes(turns, inbound, t, turns[t].origin.event))
  }

  predicate Below(ids: set<Id>, next: Id) {
    forall id | id in ids :: id < next
  }

  predicate IdsSound(db: Database) {
    && Below(db.sessions.Keys, db.nextId) && Below(db.generations.Keys, db.nextId) && Below(db.turns.Keys, db.nextId)
    && Below(db.jobs.Keys, db.nextId) && Below(db.inbound.Keys, db.nextId)
  }

  ghost predicate Sound(db: Database) {
    && IdsSound(db)
    && SessionsSound(db.sessions, db.issues)
    && GenerationsSound(db.sessions, db.generations)
    && TurnsSound(db.turns, db.activeTurns, db.generations)
    && JobsSound(db.turns, db.jobs, db.jobOfTurn)
    && InboundSound(db.inbound, db.deliveries, db.actions)
    && ConsumptionSound(db.turns, db.inbound)
  }

  lemma FreshIds(db: Database)
    requires Sound(db)
    ensures forall n: Id | db.nextId <= n ::
              && n !in db.sessions && n !in db.generations && n !in db.turns && n !in db.jobs && n !in db.inbound
              && n !in db.activeTurns && n !in db.jobOfTurn
  {
    hide SessionsSound, GenerationsSound, InboundSound, ConsumptionSound;
    forall g | g in db.activeTurns
      ensures g < db.nextId
    {
      assert db.turns[db.activeTurns[g]].generation == g;
    }
    assert db.jobOfTurn.Keys == db.turns.Keys;
  }

  /** The active generation of a session is there and belongs to it. */
  lemma OwnGeneration(db: Database, id: Id)
    requires Sound(db) && id in db.sessions
    ensures db.sessions[id].id == id
    ensures var g := db.sessions[id].active;
            g.Some? && g.value in db.generations && db.generations[g.value].id == g.value
              && db.generations[g.value].session == id
  {
    hide IdsSound, TurnsSound, JobsSound, InboundSound, ConsumptionSound;
  }

  lemma TablesAgree(db: Database, session: Id, generation: Id)
    requires Sound(db)
    ensures session in db.sessions ==> db.sessions[session].id == session
    ensures generation in db.generations ==> db.generations[generation].id == generation
  {
    hide IdsSound, TurnsSound, JobsSound, InboundSound, ConsumptionSound;
  }
}
