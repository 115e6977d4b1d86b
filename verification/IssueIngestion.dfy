/** What ingesting one GitLab event does to the database (src/gca/issue_sessions/ingestion.py, lines 74-651). */
module IssueIngestion {
  import opened Wrappers
  import opened IssueModels

  datatype Event = Event(
    delivery: string, eventType: string, action: string, objectKey: string, instance: string, project: int,
    projectPath: string, repositoryUrl: string, issueIid: Option<int>, issueTitle: string, mrIid: Option<int>,
    noteBody: string, actor: Option<int>, command: Option<string>, labelAdded: bool, pipelineStatus: string,
    pipelineSha: string, targetBranch: string, relevant: bool, ignoreReason: string)

  datatype Registration = Registration(
    id: string, instance: string, projectPath: string, repositoryUrl: string, triggerLabel: string,
    actorAllowlist: set<int>, botUser: Option<int>, minimumLevel: int)

  /** The project membership at the time of a delivery: project and user to access level. */
  type Membership = (int, int) -> Option<int>

  datatype Delivery = Delivery(event: Event, registration: Registration, membership: Membership)

  datatype Config = Config(turnMaxSteps: nat, generationMaxSteps: nat)

  datatype Decision = Decision(authorized: bool, reason: string)

  datatype Verdict = Accepted | Ignored | Duplicate

  datatype IngestResult = IngestResult(
    verdict: Verdict, session: Option<Id>, generation: Option<Id>, turn: Option<Id>, job: Option<Id>, event: Option<Id>)

  const RUN := Some("/agent run")
  const FIX := Some("/agent fix")
  const STATUS := Some("/agent status")
  const CANCEL := Some("/agent cancel")

  function Or(s: string, t: string): string {
    if s != "" then s else t
  }

  function KeyOf(e: Event): ActionKey {
    ActionKey(e.project, e.objectKey, e.action)
  }

  // ---------------------------------------------------------------- decisions

  function Authorize(d: Delivery): Decision {
    var e, r := d.event, d.registration;
    if e.actor.None? then
      if e.labelAdded then Decision(true, "label trigger without actor") else Decision(false, "missing actor")
    else if e.actor.value in r.actorAllowlist then Decision(true, "actor allowlist")
    else if r.botUser == e.actor then Decision(false, "bot actor")
    else
      var level := d.membership(e.project, e.actor.value);
      if level.Some? && level.value >= r.minimumLevel then Decision(true, "membership role")
      else if level.None? && r.actorAllowlist == {} then
        if e.command == None || e.command == STATUS then Decision(true, "membership unavailable; provisional accept")
        else Decision(false, "membership unavailable for privileged command")
      else Decision(false, "insufficient access")
  }

  predicate IsStart(e: Event) {
    e.labelAdded || e.command == RUN
  }

  function FindIssue(db: Database, key: IssueKey): Option<IssueSession> {
    if key in db.issues && db.issues[key] in db.sessions then Some(db.sessions[db.issues[key]]) else None
  }

  function Resolved(db: Database, e: Event): Option<IssueSession> {
    if e.issueIid.Some? then FindIssue(db, IssueKey(e.instance, e.project, e.issueIid.value))
    else if e.mrIid.Some? then
      var link := LinkOfMergeRequest(db.links, e.project, e.mrIid.value);
      if link.Some? && link.value.session in db.sessions then Some(db.sessions[link.value.session]) else None
    else None
  }

  predicate ShouldQueue(g: IssueGeneration, e: Event, decision: Decision) {
    if e.command == FIX then decision.authorized && g.status == AWAITING_MERGE
    else if e.command == RUN then
      g.status != AWAITING_MERGE && g.waitReason != Some(CLARIFICATION) && decision.authorized
    else if g.status == WAITING_HUMAN then
      if g.waitReason == Some(CLARIFICATION) then decision.authorized && e.noteBody != "" && e.command == None
      else if g.waitReason in {Some(NO_SAFE_CHANGE), Some(REMEDIATION_EXHAUSTED), Some(MR_CLOSED)} then
        decision.authorized && (e.command == RUN || e.noteBody != "")
      else false
    else if g.status == AWAITING_MERGE then e.command == FIX && decision.authorized
    else if e.eventType == "Pipeline Hook" && e.pipelineStatus == "failed" then g.status == AWAITING_MERGE
    else false
  }

  predicate HasVerifiedMr(links: seq<ScmLink>, generation: Id) {
    var link := LinkOfGeneration(links, generation);
    link.Some? && link.value.mrIid.Some?
  }

  /** `/agent run` restarts a failed or cancelled generation that has no merge request. */
  predicate Restarts(db: Database, g: IssueGeneration, e: Event) {
    e.command == RUN && g.status in {FAILED, CANCELLED} && !HasVerifiedMr(db.links, g.id)
  }

  function MergedBecause(db: Database, g: IssueGeneration, e: Event): MergeReason {
    var link := LinkOfGeneration(db.links, g.id);
    if link.Some? && link.value.expectedHead != "" && e.pipelineSha != "" && e.pipelineSha != link.value.expectedHead
    then EXTERNAL_MUTATION else MANAGED
  }

  // ---------------------------------------------------------------- rows

  function NewInbound(id: Id, e: Event, authorized: bool, reason: string, session: Option<Id>, generation: Option<Id>)
      : InboundEvent {
    InboundEvent(id, e.delivery, KeyOf(e), session, generation, authorized, reason, None)
  }

  /** The database with one more inbound event, which takes the next id. */
  function Recorded(db: Database, event: InboundEvent): Database {
    db.(nextId := db.nextId + 1,
        inbound := db.inbound[db.nextId := event.(id := db.nextId)],
        deliveries := db.deliveries[event.delivery := db.nextId],
        actions := db.actions[event.key := db.nextId])
  }

  function NewSession(id: Id, e: Event, r: Registration, issueIid: int): IssueSession {
    IssueSession(id, IssueKey(e.instance, e.project, issueIid), e.projectPath, e.issueTitle,
                 Or(e.repositoryUrl, Or(r.repositoryUrl, r.instance + "/" + r.projectPath + ".git")),
                 r.id, r.triggerLabel, QUEUED, None, 0)
  }

  function NewGeneration(id: Id, session: Id, targetBranch: string, maxSteps: nat): IssueGeneration {
    IssueGeneration(id, session, QUEUED, None, targetBranch, maxSteps, 0, None, "", None, 0, false, None, 0)
  }

  function NewTurn(id: Id, g: IssueGeneration, session: Id, kind: string, maxSteps: nat, origin: TurnOrigin): Turn {
    Turn(id, session, g.id, kind, QueuedTurn, None, maxSteps, g.leaseEpoch, None, origin, 0)
  }

  function NewJob(id: Id, t: Turn, s: IssueSession, g: IssueGeneration): TurnJob {
    TurnJob(id, t.id, s.id, g.id, s.repositoryUrl, Or(g.targetBranch, "main"), t.maxSteps, g.leaseEpoch,
      g.cancelRequested)
  }

  // ---------------------------------------------------------------- the outcome of an event

  predicate Clashes(db: Database, e: Event) {
    e.delivery in db.deliveries || KeyOf(e) in db.actions
  }

  function DuplicateOf(db: Database, e: Event): IngestResult {
    if e.delivery in db.deliveries && db.deliveries[e.delivery] in db.inbound then
      var before := db.inbound[db.deliveries[e.delivery]];
      IngestResult(Duplicate, before.session, None, None, None, Some(before.id))
    else IngestResult(Duplicate, None, None, None, None, None)
  }

  function OnlyRecorded(db: Database, e: Event, authorized: bool, reason: string): (Database, IngestResult) {
    (Recorded(db, NewInbound(0, e, authorized, reason, None, None)),
     IngestResult(Ignored, None, None, None, None, Some(db.nextId)))
  }

  /** A new session and its first generation. */
  function Opened(db: Database, s: IssueSession, g: IssueGeneration): Database {
    db.(nextId := db.nextId + 2,
        sessions := db.sessions[s.id := s], issues := db.issues[s.key := s.id],
          generations := db.generations[g.id := g])
  }

  /** A new active turn and its job, which take the next two ids and name each other. */
  function WithTurn(db: Database, turn: Turn, s: IssueSession, g: IssueGeneration): Database {
    var t := turn.(id := db.nextId);
    var j := db.nextId + 1;
    db.(nextId := j + 1,
        turns := db.turns[t.id := t.(job := Some(j), version := t.version + 1)],
        activeTurns := db.activeTurns[t.generation := t.id],
        jobs := db.jobs[j := NewJob(j, t, s, g)],
        jobOfTurn := db.jobOfTurn[t.id := j])
  }

  function Consumed(db: Database, event: Id, turn: Id): Database {
    if event in db.inbound then db.(inbound := db.inbound[event := db.inbound[event].(consumedBy := Some(turn))])
        else db
  }

  function Noted(db: Database, key: EffectKey, action: OutboundAction): Database {
    if key in db.outbound then db else db.(outbound := db.outbound[key := action])
  }

  function FirstSession(n: Id, d: Delivery, issueIid: int): IssueSession {
    NewSession(n, d.event, d.registration, issueIid).(active := Some(n + 1), version := 1)
  }

  function FirstGeneration(n: Id, e: Event, config: Config): IssueGeneration {
    NewGeneration(n + 1, n, Or(e.targetBranch, "main"), config.generationMaxSteps)
  }

  /** A new session with its generation, its first turn, the job of the turn and the event that started it. */
  function Started(db: Database, d: Delivery, decision: Decision, config: Config, issueIid: int)
      : (Database, IngestResult) {
    var e, n := d.event, db.nextId;
    var s, g := FirstSession(n, d, issueIid), FirstGeneration(n, d.event, config);
    var scheduled := WithTurn(Opened(db, s, g), NewTurn(0, g, n, "code", config.turnMaxSteps, FirstTurn), s, g);
    var recorded := Recorded(scheduled,
        NewInbound(0, e, true, Or(decision.reason, "start authorized"), Some(n), Some(n + 1)));
    var consumed := Consumed(recorded, n + 4, n + 2);
    var logged := consumed.(events := Logged(db.events, n, Some(n + 1), Some(n + 2), "lifecycle"));
    (Noted(logged, AckNote(n, n + 1), OutboundAction(n, n + 1, Some(n + 2))),
     IngestResult(Accepted, Some(n), Some(n + 1), Some(n + 2), Some(n + 3), Some(n + 4)))
  }

  /** A session and a generation saved with new contents. */
  function BothSaved(db: Database, s: IssueSession, g: IssueGeneration): Database {
    db.(sessions := db.sessions[s.id := s.(version := s.version + 1)],
        generations := db.generations[g.id := g.(version := g.version + 1)])
  }

  function KindOfTurn(g: IssueGeneration, e: Event): string {
    if g.waitReason == Some(CLARIFICATION) && e.command == None && e.noteBody != "" then "clarification"
    else if e.command == FIX then "remediation"
    else "code"
  }

  function FollowUpTurn(s: IssueSession, g: IssueGeneration, e: Event, event: Id, config: Config): Turn {
    NewTurn(0, g, s.id, KindOfTurn(g, e), config.turnMaxSteps, FollowUp(event)).(question := g.question)
  }

  /** A queued turn with its job and the event it consumes, and the session and the generation saved as queued. */
  function Queued(db: Database, s: IssueSession, g: IssueGeneration, e: Event, event: Id, config: Config)
      : (Database, IngestResult) {
    var n := db.nextId;
    var consumed := Consumed(WithTurn(db, FollowUpTurn(s, g, e, event, config), s, g), event, n);
    (BothSaved(consumed, s.(status := QUEUED), g.(status := QUEUED, waitReason := None)),
     IngestResult(Accepted, Some(s.id), Some(g.id), Some(n), Some(n + 1), Some(event)))
  }

  /** The session and its generation begin anew, with the summary of the old generation. */
  function Restarted(db: Database, s: IssueSession, g: IssueGeneration, config: Config)
      : (Database, IssueSession, IssueGeneration) {
    var n := db.nextId;
    var g' := NewGeneration(n, s.id, g.targetBranch, config.generationMaxSteps).(summary := g.summary,
        restartOf := Some(g.id));
    var s' := s.(active := Some(n), status := QUEUED, version := s.version + 1);
    (db.(nextId := n + 1, sessions := db.sessions[s.id := s'], generations := db.generations[n := g']), s', g')
  }

  /** The database with an event of a session recorded and logged. */
  function Seen(db: Database, s: Id, g: Id, e: Event, decision: Decision): Database {
    var recorded := Recorded(db, NewInbound(0, e, decision.authorized, decision.reason, Some(s), Some(g)));
    recorded.(events := Logged(db.events, s, Some(g), None, "webhook"))
  }

  /** What the command of a recorded event and the status of the generation call for. */
  function Reaction(db: Database, s: IssueSession, g: IssueGeneration, e: Event, decision: Decision, event: Id,
      config: Config)
    : (Database, IngestResult)
  {
    var ignored := IngestResult(Ignored, Some(s.id), None, None, None, Some(event));
    var accepted := IngestResult(Accepted, Some(s.id), Some(g.id), None, None, Some(event));
    if s.status == COMPLETED then (db, ignored)
    else if e.command == STATUS then
      (Noted(db, StatusNote(s.id, e.delivery), OutboundAction(s.id, g.id, None)), accepted)
    else if e.command == CANCEL then
      if !decision.authorized then (db, ignored)
      else (BothSaved(db, s.(status := CANCELLED), g.(cancelRequested := true, status := CANCELLED)), accepted)
    else if e.eventType == "Merge Request Hook" && e.action == "merge" then (Merged(db, s, g, e), accepted)
    else if e.eventType == "Merge Request Hook" && e.action == "close" then
      (BothSaved(db, s.(status := WAITING_HUMAN), g.(status := WAITING_HUMAN, waitReason := Some(MR_CLOSED))), accepted)
    else if g.id in db.activeTurns then (db, accepted.(turn := Some(db.activeTurns[g.id])))
    else if !ShouldQueue(g, e, decision) then
      (db, accepted.(verdict := if decision.authorized || e.command == None then Accepted else Ignored))
    else if Restarts(db, g, e) then
      var (restarted, s', g') := Restarted(db, s, g, config);
      Queued(restarted, s', g', e, event, config)
    else Queued(db, s, g, e, event, config)
  }

  function Merged(db: Database, s: IssueSession, g: IssueGeneration, e: Event): Database {
    var merged := g.(status := COMPLETED, mergeReason := Some(MergedBecause(db, g, e)), waitReason := None,
        cancelRequested := true);
    var after := BothSaved(db, s.(status := COMPLETED), merged);
    after.(events := Logged(after.events, s.id, Some(g.id), None, "merge"))
  }

  /** An event for a session: recorded first, and then acted upon. */
  function Handled(db: Database, s: IssueSession, g: IssueGeneration, d: Delivery, decision: Decision, config: Config)
    : (Database, IngestResult)
  {
    Reaction(Seen(db, s.id, g.id, d.event, decision), s, g, d.event, decision, db.nextId, config)
  }

  /** The database and the answer after one delivery, when nothing but a duplicate can go wrong. */
  function Ingested(db: Database, d: Delivery, config: Config): (Database, IngestResult) {
    var e, decision, session := d.event, Authorize(d), Resolved(db, d.event);
    if Clashes(db, e) then (db, DuplicateOf(db, e))
    else if !e.relevant then OnlyRecorded(db, e, false, e.ignoreReason)
    else if session.None? && !IsStart(e) then
      OnlyRecorded(db, e, decision.authorized, Or(decision.reason, "no open issue session"))
    else if session.None? && !decision.authorized && (e.command == RUN || e.actor.Some?) then
      OnlyRecorded(db, e, false, if e.command == RUN && e.issueIid.None? then "missing issue iid" else decision.reason)
    else if session.None? then
      if e.issueIid.None? then OnlyRecorded(db, e, false, "missing issue iid")
      else Started(db, d, decision, config, e.issueIid.value)
    else if session.value.active.Some? && session.value.active.value in db.generations then
      Handled(db, session.value, db.generations[session.value.active.value], d, decision, config)
    else (db, IngestResult(Ignored, None, None, None, None, None))
  }

  // ---------------------------------------------------------------- remediation

  const REMEDIATION_MAX_STEPS := 25

  function RemediationTurn(s: IssueSession, g: IssueGeneration): Turn {
    NewTurn(0, g, s.id, "remediation", REMEDIATION_MAX_STEPS, Pipeline)
  }

  const MAX_REMEDIATION_ATTEMPTS := 3

  /** What is asked of a generation before the transaction, and not again within it. */
  predicate MayRemediate(g: IssueGeneration) {
    g.status == AWAITING_MERGE && g.remediationAttempts < MAX_REMEDIATION_ATTEMPTS
  }

  /** The transaction that queues a remediation turn; it looks at active turns only. */
  function Remediated(db: Database, s: IssueSession, g: IssueGeneration): Database {
    var s', g' := s.(status := QUEUED), g.(status := QUEUED, remediationAttempts := g.remediationAttempts + 1);
    var saved := BothSaved(db, s', g');
    var n := saved.nextId;
    var s'', g'' := saved.sessions[s.id], saved.generations[g.id];
    var scheduled := WithTurn(saved, RemediationTurn(s'', g''), s'', g'');
    scheduled.(events := Logged(db.events, s.id, Some(g.id), Some(n), "remediation"))
  }

  /** The transaction that gives up after the last attempt. */
  function GivenUp(db: Database, s: IssueSession, g: IssueGeneration): Database {
    var saved := BothSaved(db, s.(status := WAITING_HUMAN),
        g.(status := WAITING_HUMAN, waitReason := Some(REMEDIATION_EXHAUSTED)));
    Noted(saved, ExhaustedNote(s.id, g.id), OutboundAction(s.id, g.id, None))
  }

  lemma ResolvedStands(db: Database, e: Event)
    requires Sound(db)
    ensures var s := Resolved(db, e); s.Some? ==> s.value.id in db.sessions && db.sessions[s.value.id] == s.value
  {
    hide IdsSound, GenerationsSound, TurnsSound, JobsSound, InboundSound, ConsumptionSound, LinkOfMergeRequest;
  }

  // ---------------------------------------------------------------- operators

  const OPERATOR_MAX_STEPS := 25
  const OPERATOR_GENERATION_STEPS := 100

  /** A session that is not completed and has an idle active generation. */
  predicate Retriable(db: Database, session: Id) {
    && session in db.sessions && db.sessions[session].status != COMPLETED && db.sessions[session].active.Some?
    && db.sessions[session].active.value in db.generations && db.sessions[session].active.value !in db.activeTurns
  }

  /** An operator's retry of an idle generation; the job still carries the cancellation that the retry clears. */
  function Retried(db: Database, s: IssueSession, g: IssueGeneration, maxSteps: nat): Database {
    var scheduled := WithTurn(db, NewTurn(0, g, s.id, "retry", maxSteps, Operator), s, g);
    var s', g' := s.(status := QUEUED), g.(status := QUEUED, waitReason := None, cancelRequested := false);
    var saved := BothSaved(scheduled, s', g');
    saved.(events := Logged(db.events, s.id, Some(g.id), Some(db.nextId), "lifecycle"))
  }

  /**
   The session and the generation that an operator's start works on: new ones, or a new generation of an old session.
   */
  function Prepared(db: Database, d: Delivery, issueIid: int): (Database, IssueSession, IssueGeneration) {
    var e, n := d.event, db.nextId;
    var found := FindIssue(db, IssueKey(e.instance, e.project, issueIid));
    if found.None? then
      var s := FirstSession(n, d, issueIid);
      var g := NewGeneration(n + 1, n, Or(e.targetBranch, "main"), OPERATOR_GENERATION_STEPS);
      (Opened(db, s, g), s, g)
    else
      var g := NewGeneration(n, found.value.id, Or(e.targetBranch, "main"), OPERATOR_GENERATION_STEPS);
      var s := found.value.(active := Some(n), status := QUEUED, version := found.value.version + 1);
      (db.(nextId := n + 1, sessions := db.sessions[s.id := s], generations := db.generations[n := g]), s, g)
  }

  /** An operator's start of an issue whose event was ignored. */
  function OperatorStarted(db: Database, d: Delivery, issueIid: int): Database {
    var (begun, s, g) := Prepared(db, d, issueIid);
    var scheduled := WithTurn(begun, NewTurn(0, g, s.id, "code", OPERATOR_MAX_STEPS, Operator), s, g);
    scheduled.(events := Logged(db.events, s.id, Some(g.id), Some(begun.nextId), "lifecycle"))
  }

  // ---------------------------------------------------------------- what the parts of an outcome change

  lemma OpenedFacts(db: Database, d: Delivery, issueIid: int, config: Config)
    ensures var n := db.nextId;
            var s, g := FirstSession(n, d, issueIid), FirstGeneration(n, d.event, config);
            var q := Opened(db, s, g);
            && s.id == n && g.id == n + 1 && g.session == n && s.active == Some(n + 1)
            && s.key == IssueKey(d.event.instance, d.event.project, issueIid)
            && q.nextId == n + 2 && n in q.sessions && n + 1 in q.generations
            && q == db.(nextId := q.nextId, sessions := q.sessions, issues := q.issues, generations := q.generations)
  {
  }

  lemma NewTurnFacts(g: IssueGeneration, session: Id, kind: string, steps: nat, origin: TurnOrigin)
    ensures var t := NewTurn(0, g, session, kind, steps, origin);
            t.status == QueuedTurn && t.job.None? && t.session == session && t.generation == g.id && t.origin == origin
  {
  }

  lemma WithTurnFacts(db: Database, turn: Turn, s: IssueSession, g: IssueGeneration)
    ensures var q := WithTurn(db, turn, s, g);
            && q.nextId == db.nextId + 2
            && q == db.(nextId := q.nextId, turns := q.turns, activeTurns := q.activeTurns, jobs := q.jobs,
              jobOfTurn := q.jobOfTurn)
  {
  }

  lemma RecordedFacts(db: Database, event: InboundEvent, turn: Id)
    ensures var q := Recorded(db, event);
            && q.nextId == db.nextId + 1 && db.nextId in q.inbound
            && q == db.(nextId := q.nextId, inbound := q.inbound, deliveries := q.deliveries, actions := q.actions)
            && forall id :: Consumed(q, id, turn) == q.(inbound := Consumed(q, id, turn).inbound)
  {
  }

  lemma ConsumedFacts(db: Database, event: Id, turn: Id)
    ensures Consumed(db, event, turn) == db.(inbound := Consumed(db, event, turn).inbound)
  {
  }

  lemma NewInboundFacts(e: Event, authorized: bool, reason: string, session: Option<Id>, generation: Option<Id>)
    ensures var event := NewInbound(0, e, authorized, reason, session, generation);
            event.delivery == e.delivery && event.key == KeyOf(e)
  {
  }
}
