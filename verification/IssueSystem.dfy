/**
 Every run of the issue-session transactions: deliveries, remediation, turns that workers move and settle, and links
 to merge requests, in any order.
 */
module IssueSystem {
  import opened Wrappers
  import opened IssueModels
  import opened IssueIngestion

  /**
   `Settle` gives a turn a new status, but never makes a closed turn active; `Restate` stands for the other writers
   of session and generation statuses, which ask no questions.
   */
  datatype Step =
    | Deliver(delivery: Delivery)
    | Remediate(session: Id, generation: Id)
    | GiveUp(session: Id, generation: Id)
    | Settle(turn: Id, end: TurnStatus)
    | Restate(session: Id, generation: Id, status: GenerationStatus, waitReason: Option<WaitReason>, cancel: bool)
    | Retry(session: Id, maxSteps: nat)
    | OperatorStart(delivery: Delivery, issueIid: int)
    | Link(link: ScmLink)

  function Settled(db: Database, t: Turn, status: TurnStatus): Database {
    db.(turns := db.turns[t.id := t.(status := status, version := t.version + 1)],
        activeTurns := if IsActive(status) then db.activeTurns
          else map g | g in db.activeTurns && db.activeTurns[g] != t.id :: db.activeTurns[g])
  }

  predicate Present(db: Database, session: Id, generation: Id) {
    session in db.sessions && generation in db.generations
  }

  function Do(db: Database, step: Step, config: Config): Database {
    match step
    case Deliver(d) => Ingested(db, d, config).0
    case Remediate(s, g) =>
      if Present(db, s, g) && g !in db.activeTurns then Remediated(db, db.sessions[s], db.generations[g]) else db
    case GiveUp(s, g) => if Present(db, s, g) then GivenUp(db, db.sessions[s], db.generations[g]) else db
    case Settle(t, status) =>
      if t in db.turns && (IsActive(status) ==> IsActive(db.turns[t].status)) then Settled(db, db.turns[t], status)
          else db
    case Restate(s, g, status, waitReason, cancel) =>
      if Present(db, s, g) then
        var g' := db.generations[g].(status := status, waitReason := waitReason, cancelRequested := cancel);
        BothSaved(db, db.sessions[s].(status := status), g')
      else db
    case Retry(s, maxSteps) =>
      if Retriable(db, s) then Retried(db, db.sessions[s], db.generations[db.sessions[s].active.value], maxSteps)
          else db
    case OperatorStart(d, issueIid) => OperatorStarted(db, d, issueIid)
    case Link(link) => db.(links := Without(db.links, link.generation) + [link])
  }

  function Without(links: seq<ScmLink>, generation: Id): seq<ScmLink> {
    if links == [] then []
    else (if links[0].generation == generation then [] else [links[0]]) + Without(links[1..], generation)
  }

  function Run(db: Database, steps: seq<Step>, config: Config): Database {
    if steps == [] then db else Do(Run(db, steps[..|steps| - 1], config), steps[|steps| - 1], config)
  }

  // ---------------------------------------------------------------- tables that grow

  lemma TurnsGrow(turns: map<Id, Turn>, active: map<Id, Id>, generations: map<Id, IssueGeneration>, t: Turn)
    requires TurnsSound(turns, active, generations)
    requires t.id !in turns && t.generation in generations && t.generation !in active && IsActive(t.status)
    ensures TurnsSound(turns[t.id := t], active[t.generation := t.id], generations)
  {
  }

  lemma JobsGrow(turns: map<Id, Turn>, jobs: map<Id, TurnJob>, jobOfTurn: map<Id, Id>, t: Turn, j: TurnJob)
    requires JobsSound(turns, jobs, jobOfTurn)
    requires t.id !in turns && j.id !in jobs && j.turn == t.id && t.job == Some(j.id)
    ensures JobsSound(turns[t.id := t], jobs[j.id := j], jobOfTurn[t.id := j.id])
  {
  }

  lemma ConsumptionGrows(turns: map<Id, Turn>, inbound: map<Id, InboundEvent>, t: Turn, e: InboundEvent)
    requires ConsumptionSound(turns, inbound)
    requires t.id !in turns && t.origin.FromEvent() && (t.origin.FollowUp? ==> t.origin.event == e.id)
    requires (e.id in inbound ==> inbound[e.id].consumedBy.None?) && e.consumedBy == Some(t.id)
    ensures ConsumptionSound(turns[t.id := t], inbound[e.id := e])
  {
    var turns', inbound' := turns[t.id := t], inbound[e.id := e];
    assert Consumes(turns', inbound', t.id, e.id);
    forall u, f | Consumes(turns', inbound', u, f)
      ensures if f == e.id then u == t.id else Consumes(turns, inbound, u, f) && u in turns
    {
    }
    forall u | u in turns && turns[u].origin.FromEvent()
      ensures exists f :: Consumes(turns', inbound', u, f)
    {
      var f :| Consumes(turns, inbound, u, f);
      assert Consumes(turns', inbound', u, f);
    }
  }

  lemma OtherTurnGrows(turns: map<Id, Turn>, inbound: map<Id, InboundEvent>, t: Turn)
    requires ConsumptionSound(turns, inbound) && t.id !in turns && !t.origin.FromEvent()
    ensures ConsumptionSound(turns[t.id := t], inbound)
  {
    var turns' := turns[t.id := t];
    forall u, f | Consumes(turns', inbound, u, f)
      ensures Consumes(turns, inbound, u, f)
    {
    }
    forall u | u in turns && turns[u].origin.FromEvent()
      ensures exists f :: Consumes(turns', inbound, u, f)
    {
      var f :| Consumes(turns, inbound, u, f);
      assert Consumes(turns', inbound, u, f);
    }
  }

  lemma InboundGrows(inbound: map<Id, InboundEvent>, deliveries: map<string, Id>, actions: map<ActionKey, Id>,
      e: InboundEvent)
    requires InboundSound(inbound, deliveries, actions)
    requires e.id !in inbound && e.delivery !in deliveries && e.key !in actions
    ensures InboundSound(inbound[e.id := e], deliveries[e.delivery := e.id], actions[e.key := e.id])
  {
  }

  lemma UnconsumedGrows(turns: map<Id, Turn>, inbound: map<Id, InboundEvent>, e: InboundEvent)
    requires ConsumptionSound(turns, inbound) && e.id !in inbound && e.consumedBy.None?
    ensures ConsumptionSound(turns, inbound[e.id := e])
  {
    var inbound' := inbound[e.id := e];
    forall u, f | Consumes(turns, inbound', u, f)
      ensures Consumes(turns, inbound, u, f)
    {
    }
    forall u | u in turns && turns[u].origin.FromEvent()
      ensures exists f :: Consumes(turns, inbound', u, f)
    {
      var f :| Consumes(turns, inbound, u, f);
      assert Consumes(turns, inbound', u, f);
    }
  }

  // ---------------------------------------------------------------- operations keep the database sound

  lemma RecordedSound(db: Database, event: InboundEvent)
    requires Sound(db) && event.delivery !in db.deliveries && event.key !in db.actions && event.consumedBy.None?
    ensures Sound(Recorded(db, event))
  {
    hide SessionsSound, GenerationsSound, TurnsSound, JobsSound, InboundSound, ConsumptionSound;
    FreshIds(db);
    var row := event.(id := db.nextId);
    InboundGrows(db.inbound, db.deliveries, db.actions, row);
    UnconsumedGrows(db.turns, db.inbound, row);
  }

  lemma SavedIssues(sessions: map<Id, IssueSession>, issues: map<IssueKey, Id>, s: IssueSession)
    requires SessionsSound(sessions, issues) && s.id in sessions && sessions[s.id].key == s.key
    ensures SessionsSound(sessions[s.id := s], issues)
  {
  }

  lemma SavedOwners(sessions: map<Id, IssueSession>, generations: map<Id, IssueGeneration>, s: IssueSession,
      g: IssueGeneration)
    requires GenerationsSound(sessions, generations) && s.id in sessions && sessions[s.id].active == s.active
    requires g.id in generations && generations[g.id].session == g.session
    ensures GenerationsSound(sessions[s.id := s], generations[g.id := g])
  {
  }

  lemma SavedSessions(db: Database, s: IssueSession, g: IssueGeneration)
    requires SessionsSound(db.sessions, db.issues) && GenerationsSound(db.sessions, db.generations)
    requires s.id in db.sessions && db.sessions[s.id].key == s.key && db.sessions[s.id].active == s.active
    requires g.id in db.generations && db.generations[g.id].session == g.session
    ensures var q := BothSaved(db, s, g);
            SessionsSound(q.sessions, q.issues) && GenerationsSound(q.sessions, q.generations)
  {
    hide SessionsSound, GenerationsSound;
    SavedIssues(db.sessions, db.issues, s.(version := s.version + 1));
    SavedOwners(db.sessions, db.generations, s.(version := s.version + 1), g.(version := g.version + 1));
  }

  lemma TurnsStay(turns: map<Id, Turn>, active: map<Id, Id>, generations: map<Id, IssueGeneration>, more: map<Id,
      IssueGeneration>)
    requires TurnsSound(turns, active, generations) && generations.Keys <= more.Keys
    ensures TurnsSound(turns, active, more)
  {
  }

  lemma BothSavedSound(db: Database, s: IssueSession, g: IssueGeneration)
    requires Sound(db)
    requires s.id in db.sessions && db.sessions[s.id].key == s.key && db.sessions[s.id].active == s.active
    requires g.id in db.generations && db.generations[g.id].session == g.session
    ensures Sound(BothSaved(db, s, g))
  {
    hide SessionsSound, GenerationsSound, TurnsSound, JobsSound, InboundSound, ConsumptionSound;
    SavedSessions(db, s, g);
    TurnsStay(db.turns, db.activeTurns, db.generations, BothSaved(db, s, g).generations);
  }

  lemma ConsumedInbound(inbound: map<Id, InboundEvent>, deliveries: map<string, Id>, actions: map<ActionKey, Id>,
      event: Id, turn: Id)
    requires InboundSound(inbound, deliveries, actions) && event in inbound
    ensures inbound[event].id == event
    ensures InboundSound(inbound[event := inbound[event].(consumedBy := Some(turn))], deliveries, actions)
  {
  }

  /** The row of a scheduled turn. */
  function TurnRow(n: Id, turn: Turn): Turn {
    turn.(id := n, job := Some(n + 1), version := turn.version + 1)
  }

  lemma ScheduledTables(db: Database, turn: Turn, s: IssueSession, g: IssueGeneration)
    requires Sound(db) && turn.status == QueuedTurn
    requires turn.generation in db.generations && turn.generation !in db.activeTurns
    ensures var q := WithTurn(db, turn, s, g);
            && q.turns == db.turns[db.nextId := TurnRow(db.nextId, turn)] && db.nextId !in db.turns
            && TurnsSound(q.turns, q.activeTurns, q.generations) && JobsSound(q.turns, q.jobs, q.jobOfTurn)
              && IdsSound(q)
  {
    hide SessionsSound, GenerationsSound, TurnsSound, JobsSound, InboundSound, ConsumptionSound, NewJob;
    FreshIds(db);
    var n := db.nextId;
    TurnsGrow(db.turns, db.activeTurns, db.generations, TurnRow(n, turn));
    JobIds(n + 1, turn.(id := n), s, g);
    JobsGrow(db.turns, db.jobs, db.jobOfTurn, TurnRow(n, turn), NewJob(n + 1, turn.(id := n), s, g));
  }

  lemma JobIds(j: Id, t: Turn, s: IssueSession, g: IssueGeneration)
    ensures NewJob(j, t, s, g).id == j && NewJob(j, t, s, g).turn == t.id
  {
  }

  /** A turn queued for an event that is recorded and not consumed. */
  lemma EventTurnSound(db: Database, turn: Turn, s: IssueSession, g: IssueGeneration, event: Id)
    requires Sound(db) && turn.status == QueuedTurn && turn.origin == FollowUp(event)
    requires turn.generation in db.generations && turn.generation !in db.activeTurns
    requires event in db.inbound && db.inbound[event].consumedBy.None?
    ensures Sound(Consumed(WithTurn(db, turn, s, g), event, db.nextId))
  {
    hide SessionsSound, GenerationsSound, TurnsSound, JobsSound, InboundSound, ConsumptionSound;
    ScheduledTables(db, turn, s, g);
    ConsumedInbound(db.inbound, db.deliveries, db.actions, event, db.nextId);
    ConsumptionGrows(db.turns, db.inbound, TurnRow(db.nextId, turn), db.inbound[event].(consumedBy := Some(db.nextId)));
  }

  lemma OtherTurnSound(db: Database, turn: Turn, s: IssueSession, g: IssueGeneration)
    requires Sound(db) && turn.status == QueuedTurn && !turn.origin.FromEvent()
    requires turn.generation in db.generations && turn.generation !in db.activeTurns
    ensures Sound(WithTurn(db, turn, s, g))
  {
    hide SessionsSound, GenerationsSound, TurnsSound, JobsSound, InboundSound, ConsumptionSound;
    ScheduledTables(db, turn, s, g);
    OtherTurnGrows(db.turns, db.inbound, TurnRow(db.nextId, turn));
  }

  lemma FirstInbound(db: Database, turn: Turn, s: IssueSession, g: IssueGeneration, event: InboundEvent)
    ensures var n, q := db.nextId, WithTurn(db, turn, s, g);
            var row := event.(id := n + 2, consumedBy := Some(n));
            Consumed(Recorded(q, event), n + 2, n) ==
            q.(nextId := n + 3, inbound := db.inbound[n + 2 := row],
              deliveries := db.deliveries[event.delivery := n + 2],
               actions := db.actions[event.key := n + 2])
  {
    var n := db.nextId;
    var row := event.(id := n + 2, consumedBy := Some(n));
    assert db.inbound[n + 2 := event.(id := n + 2)][n + 2 := row] == db.inbound[n + 2 := row];
  }

  lemma MoreIds(db: Database, q: Database, n: Id)
    requires IdsSound(db) && db.nextId <= n && q.sessions == db.sessions && q.generations == db.generations
    requires q.turns == db.turns && q.jobs == db.jobs && q.nextId == n + 1 && q.inbound.Keys == db.inbound.Keys + {n}
    ensures IdsSound(q)
  {
  }

  /** A turn queued for the event that is recorded right after it. */
  lemma FirstTurnSound(db: Database, turn: Turn, s: IssueSession, g: IssueGeneration, event: InboundEvent)
    requires Sound(db) && turn.status == QueuedTurn && turn.origin == FirstTurn
    requires turn.generation in db.generations && turn.generation !in db.activeTurns
    requires event.delivery !in db.deliveries && event.key !in db.actions
    ensures var recorded := Recorded(WithTurn(db, turn, s, g), event);
            Sound(Consumed(recorded, db.nextId + 2, db.nextId))
  {
    hide SessionsSound, GenerationsSound, TurnsSound, JobsSound, InboundSound, ConsumptionSound, IdsSound, WithTurn,
      Recorded, Consumed;
    ScheduledTables(db, turn, s, g);
    WithTurnFrame(db, turn, s, g);
    FirstInbound(db, turn, s, g, event);
    FreshIds(db);
    var row := event.(id := db.nextId + 2, consumedBy := Some(db.nextId));
    InboundGrows(db.inbound, db.deliveries, db.actions, row);
    ConsumptionGrows(db.turns, db.inbound, TurnRow(db.nextId, turn), row);
    var q := Consumed(Recorded(WithTurn(db, turn, s, g), event), db.nextId + 2, db.nextId);
    MoreIds(WithTurn(db, turn, s, g), q, db.nextId + 2);
  }

  lemma WithTurnFrame(db: Database, turn: Turn, s: IssueSession, g: IssueGeneration)
    ensures var q := WithTurn(db, turn, s, g);
            && q.nextId == db.nextId + 2
            && q == db.(nextId := q.nextId, turns := q.turns, activeTurns := q.activeTurns, jobs := q.jobs,
              jobOfTurn := q.jobOfTurn)
  {
  }

  lemma OpenedTables(sessions: map<Id, IssueSession>, issues: map<IssueKey, Id>, generations: map<Id, IssueGeneration>,
                     s: IssueSession, g: IssueGeneration)
    requires SessionsSound(sessions, issues) && GenerationsSound(sessions, generations)
    requires s.id !in sessions && s.key !in issues && g.id !in generations && g.session == s.id
             && s.active == Some(g.id)
    ensures SessionsSound(sessions[s.id := s], issues[s.key := s.id])
    ensures GenerationsSound(sessions[s.id := s], generations[g.id := g])
  {
  }

  lemma OpenedSound(db: Database, s: IssueSession, g: IssueGeneration)
    requires Sound(db) && s.id == db.nextId && g.id == db.nextId + 1
    requires s.key !in db.issues && g.session == s.id && s.active == Some(g.id)
    ensures Sound(Opened(db, s, g)) && g.id !in db.activeTurns
  {
    hide SessionsSound, GenerationsSound, TurnsSound, JobsSound, InboundSound, ConsumptionSound;
    FreshIds(db);
    OpenedTables(db.sessions, db.issues, db.generations, s, g);
    TurnsStay(db.turns, db.activeTurns, db.generations, db.generations[g.id := g]);
  }

  lemma RestartedTables(sessions: map<Id, IssueSession>, issues: map<IssueKey, Id>, generations: map<Id,
      IssueGeneration>,
                        s: IssueSession, g: IssueGeneration)
    requires SessionsSound(sessions, issues) && GenerationsSound(sessions, generations)
    requires s.id in sessions && sessions[s.id].key == s.key && g.id !in generations && g.session == s.id
             && s.active == Some(g.id)
    ensures SessionsSound(sessions[s.id := s], issues)
    ensures GenerationsSound(sessions[s.id := s], generations[g.id := g])
  {
  }

  lemma RestartedSound(db: Database, s: IssueSession, g: IssueGeneration, config: Config)
    requires Sound(db) && s.id in db.sessions && db.sessions[s.id].key == s.key
    ensures var (q, s', g') := Restarted(db, s, g, config);
            && Sound(q) && g'.id !in q.activeTurns && g'.id in q.generations && q.generations[g'.id] == g'
            && s'.id == s.id && s.id in q.sessions && q.sessions[s.id] == s' && q.inbound == db.inbound
  {
    hide SessionsSound, GenerationsSound, TurnsSound, JobsSound, InboundSound, ConsumptionSound;
    FreshIds(db);
    var (q, s', g') := Restarted(db, s, g, config);
    RestartedTables(db.sessions, db.issues, db.generations, s', g');
    TurnsStay(db.turns, db.activeTurns, db.generations, q.generations);
  }

  // ---------------------------------------------------------------- every step keeps the database sound

  lemma OutsideTables(db: Database, q: Database)
    requires Sound(db) && q == db.(outbound := q.outbound, events := q.events, links := q.links)
    ensures Sound(q)
  {
    hide SessionsSound, GenerationsSound, TurnsSound, JobsSound, InboundSound, ConsumptionSound;
  }

  lemma QueuedSound(db: Database, s: IssueSession, g: IssueGeneration, e: Event, event: Id, config: Config)
    requires Sound(db) && s.id in db.sessions && db.sessions[s.id] == s && g.id in db.generations
             && db.generations[g.id] == g
    requires g.id !in db.activeTurns && event in db.inbound && db.inbound[event].consumedBy.None?
    ensures Sound(Queued(db, s, g, e, event, config).0)
  {
    hide Sound, WithTurn;
    var turn := FollowUpTurn(s, g, e, event, config);
    EventTurnSound(db, turn, s, g, event);
    WithTurnFrame(db, turn, s, g);
    BothSavedSound(Consumed(WithTurn(db, turn, s, g), event, db.nextId), s.(status := QUEUED),
      g.(status := QUEUED, waitReason := None));
  }

  lemma ReactionSound(db: Database, s: IssueSession, g: IssueGeneration, e: Event, decision: Decision, event: Id,
      config: Config)
    requires Sound(db) && s.id in db.sessions && db.sessions[s.id] == s && g.id in db.generations
             && db.generations[g.id] == g
    requires event in db.inbound && db.inbound[event].consumedBy.None?
    ensures Sound(Reaction(db, s, g, e, decision, event, config).0)
  {
    hide Sound, Queued, Restarted, BothSaved, ShouldQueue, Restarts;
    var merged := g.(status := COMPLETED, mergeReason := Some(MergedBecause(db, g, e)), waitReason := None,
        cancelRequested := true);
    BothSavedSound(db, s.(status := COMPLETED), merged);
    OutsideTables(BothSaved(db, s.(status := COMPLETED), merged), Merged(db, s, g, e));
    BothSavedSound(db, s.(status := CANCELLED), g.(cancelRequested := true, status := CANCELLED));
    BothSavedSound(db, s.(status := WAITING_HUMAN), g.(status := WAITING_HUMAN, waitReason := Some(MR_CLOSED)));
    OutsideTables(db, Noted(db, StatusNote(s.id, e.delivery), OutboundAction(s.id, g.id, None)));
    var (restarted, s', g') := Restarted(db, s, g, config);
    RestartedSound(db, s, g, config);
    QueuedSound(restarted, s', g', e, event, config);
    if g.id !in db.activeTurns {
      QueuedSound(db, s, g, e, event, config);
    }
  }

  lemma SeenSound(db: Database, s: Id, g: Id, e: Event, decision: Decision)
    requires Sound(db) && !Clashes(db, e)
    ensures var q := Seen(db, s, g, e, decision);
            && Sound(q) && q.sessions == db.sessions && q.generations == db.generations
            && db.nextId in q.inbound && q.inbound[db.nextId].consumedBy.None?
  {
    hide Sound;
    var event := NewInbound(0, e, decision.authorized, decision.reason, Some(s), Some(g));
    RecordedSound(db, event);
    OutsideTables(Recorded(db, event), Seen(db, s, g, e, decision));
  }

  lemma StartedSound(db: Database, d: Delivery, decision: Decision, config: Config, issueIid: int)
    requires Sound(db) && !Clashes(db, d.event)
             && FindIssue(db, IssueKey(d.event.instance, d.event.project, issueIid)).None?
    ensures Sound(Started(db, d, decision, config, issueIid).0)
  {
    hide Sound, WithTurn, Recorded, Consumed, FirstSession, FirstGeneration, Opened, NewTurn, NewInbound, FindIssue,
      Logged, Noted;
    var e, n := d.event, db.nextId;
    var s, g := FirstSession(n, d, issueIid), FirstGeneration(n, e, config);
    OpenedFacts(db, d, issueIid, config);
    NoSuchIssue(db, s.key);
    OpenedSound(db, s, g);
    var turn := NewTurn(0, g, n, "code", config.turnMaxSteps, FirstTurn);
    NewTurnFacts(g, n, "code", config.turnMaxSteps, FirstTurn);
    var event := NewInbound(0, e, true, Or(decision.reason, "start authorized"), Some(n), Some(n + 1));
    NewInboundFacts(e, true, Or(decision.reason, "start authorized"), Some(n), Some(n + 1));
    FirstTurnSound(Opened(db, s, g), turn, s, g, event);
    var consumed := Consumed(Recorded(WithTurn(Opened(db, s, g), turn, s, g), event), n + 4, n + 2);
    NotedOutside(consumed, Logged(db.events, n, Some(n + 1), Some(n + 2), "lifecycle"), AckNote(n, n + 1),
      OutboundAction(n, n + 1, Some(n + 2)));
  }

  lemma NotedOutside(db: Database, events: seq<SessionEvent>, key: EffectKey, action: OutboundAction)
    requires Sound(db)
    ensures Sound(Noted(db.(events := events), key, action))
  {
    hide Sound;
    OutsideTables(db, Noted(db.(events := events), key, action));
  }

  lemma NoSuchIssue(db: Database, key: IssueKey)
    requires Sound(db) && FindIssue(db, key).None?
    ensures key !in db.issues
  {
    hide IdsSound, GenerationsSound, TurnsSound, JobsSound, InboundSound, ConsumptionSound;
  }

  lemma OnlyRecordedSound(db: Database, e: Event, authorized: bool, reason: string)
    requires Sound(db) && !Clashes(db, e)
    ensures Sound(OnlyRecorded(db, e, authorized, reason).0)
  {
    hide Sound;
    RecordedSound(db, NewInbound(0, e, authorized, reason, None, None));
  }

  lemma HandledSound(db: Database, s: IssueSession, d: Delivery, decision: Decision, config: Config)
    requires Sound(db) && !Clashes(db, d.event) && s.id in db.sessions && db.sessions[s.id] == s
    ensures s.active.Some? && s.active.value in db.generations
    ensures Sound(Handled(db, s, db.generations[s.active.value], d, decision, config).0)
  {
    hide Sound, Reaction, Seen, Clashes;
    OwnGeneration(db, s.id);
    var g := db.generations[s.active.value];
    SeenSound(db, s.id, g.id, d.event, decision);
    ReactionSound(Seen(db, s.id, g.id, d.event, decision), s, g, d.event, decision, db.nextId, config);
  }

  /** What a delivery can do: nothing, be recorded, start a session or act on one. */
  lemma IngestedCases(db: Database, d: Delivery, config: Config)
    ensures var q, e := Ingested(db, d, config).0, d.event;
            || (q == db && (Clashes(db, e)
                            || (Resolved(db, e).Some?
                                && !(Resolved(db, e).value.active.Some?
                                  && Resolved(db, e).value.active.value in db.generations))))
            || (!Clashes(db, e) && exists authorized, reason :: q == OnlyRecorded(db, e, authorized, reason).0)
            || (!Clashes(db, e) && e.issueIid.Some? && Resolved(db, e).None? && IsStart(e)
                && q == Started(db, d, Authorize(d), config, e.issueIid.value).0)
            || (!Clashes(db, e) && Resolved(db, e).Some?
                && var s := Resolved(db, e).value;
                   s.active.Some? && s.active.value in db.generations
                   && q == Handled(db, s, db.generations[s.active.value], d, Authorize(d), config).0)
  {
    hide Clashes, OnlyRecorded, Resolved, Started, Handled, Authorize, IsStart;
  }

  lemma DeliverSound(db: Database, d: Delivery, config: Config)
    requires Sound(db)
    ensures Sound(Ingested(db, d, config).0)
  {
    var e := d.event;
    assert e.issueIid.Some? ==> Resolved(db, e) == FindIssue(db, IssueKey(e.instance, e.project, e.issueIid.value));
    hide Sound, Ingested, Clashes, OnlyRecorded, Resolved, Started, Handled, Authorize, FindIssue;
    ResolvedStands(db, e);
    IngestedCases(db, d, config);
    if !Clashes(db, e) {
      if Resolved(db, e).Some? {
        HandledSound(db, Resolved(db, e).value, d, Authorize(d), config);
      } else if e.issueIid.Some? {
        StartedSound(db, d, Authorize(d), config, e.issueIid.value);
      }
      if authorized: bool, reason: string :| Ingested(db, d, config).0 == OnlyRecorded(db, e, authorized, reason).0 {
        OnlyRecordedSound(db, e, authorized, reason);
      }
    }
  }

  /** Only the status and the version of a turn change. */
  function SettledRow(t: Turn, status: TurnStatus): Turn {
    t.(status := status, version := t.version + 1)
  }

  lemma SettledTurns(db: Database, t: Id, status: TurnStatus)
    requires TurnsSound(db.turns, db.activeTurns, db.generations)
    requires t in db.turns && (IsActive(status) ==> IsActive(db.turns[t].status))
    ensures var q := Settled(db, db.turns[t], status);
            TurnsSound(q.turns, q.activeTurns, q.generations)
              && q.turns == db.turns[t := SettledRow(db.turns[t], status)]
  {
  }

  lemma SettledJobs(turns: map<Id, Turn>, jobs: map<Id, TurnJob>, jobOfTurn: map<Id, Id>, t: Id, status: TurnStatus)
    requires JobsSound(turns, jobs, jobOfTurn) && t in turns
    ensures JobsSound(turns[t := SettledRow(turns[t], status)], jobs, jobOfTurn)
  {
  }

  lemma SettledConsumption(turns: map<Id, Turn>, inbound: map<Id, InboundEvent>, t: Id, status: TurnStatus)
    requires ConsumptionSound(turns, inbound) && t in turns
    ensures ConsumptionSound(turns[t := SettledRow(turns[t], status)], inbound)
  {
    var turns' := turns[t := SettledRow(turns[t], status)];
    forall u, f | Consumes(turns', inbound, u, f)
      ensures Consumes(turns, inbound, u, f)
    {
    }
    forall u | u in turns && turns[u].origin.FromEvent()
      ensures exists f :: Consumes(turns', inbound, u, f)
    {
      var f :| Consumes(turns, inbound, u, f);
      assert Consumes(turns', inbound, u, f);
    }
  }

  lemma SettledSound(db: Database, t: Id, status: TurnStatus)
    requires Sound(db) && t in db.turns && (IsActive(status) ==> IsActive(db.turns[t].status))
    ensures Sound(Settled(db, db.turns[t], status))
  {
    hide SessionsSound, GenerationsSound, TurnsSound, JobsSound, InboundSound, ConsumptionSound;
    OwnTurn(db, t);
    SettledTurns(db, t, status);
    SettledJobs(db.turns, db.jobs, db.jobOfTurn, t, status);
    SettledConsumption(db.turns, db.inbound, t, status);
  }

  lemma OwnTurn(db: Database, t: Id)
    requires Sound(db) && t in db.turns
    ensures db.turns[t].id == t
  {
    hide SessionsSound, GenerationsSound, JobsSound, InboundSound, ConsumptionSound;
  }

  lemma RemediatedSound(db: Database, s: Id, g: Id)
    requires Sound(db) && Present(db, s, g) && g !in db.activeTurns
    ensures Sound(Remediated(db, db.sessions[s], db.generations[g]))
  {
    hide Sound, WithTurn;
    TablesAgree(db, s, g);
    var s0, g0 := db.sessions[s], db.generations[g];
    var s1, g1 := s0.(status := QUEUED), g0.(status := QUEUED, remediationAttempts := g0.remediationAttempts + 1);
    BothSavedSound(db, s1, g1);
    var saved := BothSaved(db, s1, g1);
    var turn := RemediationTurn(saved.sessions[s], saved.generations[g]);
    OtherTurnSound(saved, turn, saved.sessions[s], saved.generations[g]);
    OutsideTables(WithTurn(saved, turn, saved.sessions[s], saved.generations[g]), Remediated(db, s0, g0));
  }

  lemma RetriedSound(db: Database, s: Id, maxSteps: nat)
    requires Sound(db) && Retriable(db, s)
    ensures Sound(Retried(db, db.sessions[s], db.generations[db.sessions[s].active.value], maxSteps))
  {
    hide Sound, WithTurn, NewTurn, Logged;
    OwnGeneration(db, s);
    var s0, g0 := db.sessions[s], db.generations[db.sessions[s].active.value];
    var turn := NewTurn(0, g0, s, "retry", maxSteps, Operator);
    NewTurnFacts(g0, s, "retry", maxSteps, Operator);
    OtherTurnSound(db, turn, s0, g0);
    WithTurnFrame(db, turn, s0, g0);
    var scheduled := WithTurn(db, turn, s0, g0);
    var s1, g1 := s0.(status := QUEUED), g0.(status := QUEUED, waitReason := None, cancelRequested := false);
    BothSavedSound(scheduled, s1, g1);
    OutsideTables(BothSaved(scheduled, s1, g1), Retried(db, s0, g0, maxSteps));
  }

  lemma PreparedSound(db: Database, d: Delivery, issueIid: int)
    requires Sound(db)
    ensures var (q, s, g) := Prepared(db, d, issueIid);
            Sound(q) && g.id in q.generations && g.id !in q.activeTurns
  {
    hide Sound;
    var key := IssueKey(d.event.instance, d.event.project, issueIid);
    var (q, s, g) := Prepared(db, d, issueIid);
    if FindIssue(db, key).None? {
      NoSuchIssue(db, key);
      OpenedSound(db, s, g);
    } else {
      ResolvedStands(db, d.event.(issueIid := Some(issueIid)));
      hide FindIssue;
      AnewSound(db, s, g);
    }
  }

  /** A session begins anew with a generation that takes the next id. */
  lemma AnewSound(db: Database, s: IssueSession, g: IssueGeneration)
    requires Sound(db) && s.id in db.sessions && db.sessions[s.id].key == s.key
    requires g.id == db.nextId && g.session == s.id && s.active == Some(g.id)
    ensures var q := db.(nextId := db.nextId + 1, sessions := db.sessions[s.id := s],
            generations := db.generations[g.id := g]);
            Sound(q) && g.id !in q.activeTurns
  {
    hide SessionsSound, GenerationsSound, TurnsSound, JobsSound, InboundSound, ConsumptionSound;
    FreshIds(db);
    RestartedTables(db.sessions, db.issues, db.generations, s, g);
    TurnsStay(db.turns, db.activeTurns, db.generations, db.generations[g.id := g]);
  }

  lemma OperatorStartedSound(db: Database, d: Delivery, issueIid: int)
    requires Sound(db)
    ensures Sound(OperatorStarted(db, d, issueIid))
  {
    hide Sound, WithTurn, NewTurn, Logged, Prepared;
    var (begun, s, g) := Prepared(db, d, issueIid);
    PreparedSound(db, d, issueIid);
    NewTurnFacts(g, s.id, "code", OPERATOR_MAX_STEPS, Operator);
    var turn := NewTurn(0, g, s.id, "code", OPERATOR_MAX_STEPS, Operator);
    OtherTurnSound(begun, turn, s, g);
    OutsideTables(WithTurn(begun, turn, s, g), OperatorStarted(db, d, issueIid));
  }

  lemma StepKeeps(db: Database, step: Step, config: Config)
    requires Sound(db)
    ensures Sound(Do(db, step, config))
  {
    hide Sound, Ingested, Remediated, Settled, BothSaved, Without, Retried, OperatorStarted;
    match step
    case Deliver(d) => DeliverSound(db, d, config);
    case Remediate(s, g) =>
      if Present(db, s, g) && g !in db.activeTurns {
        RemediatedSound(db, s, g);
      }
    case GiveUp(s, g) =>
      if Present(db, s, g) {
        TablesAgree(db, s, g);
        var s0, g0 := db.sessions[s], db.generations[g];
        var saved := BothSaved(db, s0.(status := WAITING_HUMAN),
            g0.(status := WAITING_HUMAN, waitReason := Some(REMEDIATION_EXHAUSTED)));
        BothSavedSound(db, s0.(status := WAITING_HUMAN),
          g0.(status := WAITING_HUMAN, waitReason := Some(REMEDIATION_EXHAUSTED)));
        OutsideTables(saved, GivenUp(db, s0, g0));
      }
    case Settle(t, status) =>
      if t in db.turns && (IsActive(status) ==> IsActive(db.turns[t].status)) {
        SettledSound(db, t, status);
      }
    case Restate(s, g, status, waitReason, cancel) =>
      if Present(db, s, g) {
        TablesAgree(db, s, g);
        var g' := db.generations[g].(status := status, waitReason := waitReason, cancelRequested := cancel);
        BothSavedSound(db, db.sessions[s].(status := status), g');
      }
    case Retry(s, maxSteps) =>
      if Retriable(db, s) {
        RetriedSound(db, s, maxSteps);
      }
    case OperatorStart(d, issueIid) => OperatorStartedSound(db, d, issueIid);
    case Link(link) => OutsideTables(db, Do(db, step, config));
  }

  lemma {:induction false} RunKeeps(steps: seq<Step>, config: Config)
    ensures Sound(Run(EMPTY, steps, config))
  {
    hide Sound, Do;
    if steps == [] {
      EmptyIsSound();
    } else {
      RunKeeps(steps[..|steps| - 1], config);
      StepKeeps(Run(EMPTY, steps[..|steps| - 1], config), steps[|steps| - 1], config);
    }
  }

  lemma EmptyIsSound()
    ensures Sound(EMPTY)
  {
  }

  // ---------------------------------------------------------------- scheduling accounts

  /**
   In every run: a generation never has two active turns, turns and jobs pair off, a turn that an event queued
   consumes exactly one event, and a turn of the pipeline or an operator consumes none.
   */
  lemma SchedulingAccounts(steps: seq<Step>, config: Config)
    ensures var db := Run(EMPTY, steps, config);
            && (forall t, u | t in db.turns && u in db.turns && db.turns[t].generation == db.turns[u].generation
                              && IsActive(db.turns[t].status) && IsActive(db.turns[u].status) :: t == u)
            && (forall t | t in db.turns :: db.turns[t].job.Some? && db.turns[t].job.value in db.jobs
                                            && db.jobs[db.turns[t].job.value].turn == t)
            && (forall j | j in db.jobs :: db.jobs[j].turn in db.turns && db.turns[db.jobs[j].turn].job == Some(j))
            && (forall t | t in db.turns && db.turns[t].origin.FromEvent() ::
                  exists e :: Consumes(db.turns, db.inbound, t, e) && forall f | Consumes(db.turns, db.inbound, t, f) ::
                    f == e)
            && (forall t, e | t in db.turns && !db.turns[t].origin.FromEvent() :: !Consumes(db.turns, db.inbound, t, e))
  {
    RunKeeps(steps, config);
    var db := Run(EMPTY, steps, config);
    hide Run, SessionsSound, GenerationsSound, InboundSound, IdsSound;
    forall t | t in db.turns && db.turns[t].origin.FromEvent()
      ensures exists e :: Consumes(db.turns, db.inbound, t, e) && forall f | Consumes(db.turns, db.inbound, t, f) ::
              f == e
    {
      var e :| Consumes(db.turns, db.inbound, t, e);
    }
  }

  // ---------------------------------------------------------------- redeliveries

  predicate SameIndexes(db: Database, q: Database) {
    q.deliveries == db.deliveries && q.actions == db.actions
  }

  lemma QueuedIndexes(db: Database, s: IssueSession, g: IssueGeneration, e: Event, event: Id, config: Config)
    ensures SameIndexes(db, Queued(db, s, g, e, event, config).0)
  {
    hide FollowUpTurn;
  }

  lemma SmallIndexes(db: Database, s: IssueSession, g: IssueGeneration, e: Event, config: Config)
    ensures SameIndexes(db, BothSaved(db, s, g)) && SameIndexes(db, Merged(db, s, g, e))
    ensures SameIndexes(db, Restarted(db, s, g, config).0)
    ensures forall key, action :: SameIndexes(db, Noted(db, key, action))
  {
    hide MergedBecause, NewGeneration, Logged;
  }

  lemma ReactionIndexes(db: Database, s: IssueSession, g: IssueGeneration, e: Event, decision: Decision, event: Id,
      config: Config)
    ensures SameIndexes(db, Reaction(db, s, g, e, decision, event, config).0)
  {
    hide Queued, ShouldQueue, Restarts, BothSaved, Merged, Restarted, Noted;
    SmallIndexes(db, s, g, e, config);
    SmallIndexes(db, s.(status := CANCELLED), g.(cancelRequested := true, status := CANCELLED), e, config);
    SmallIndexes(db, s.(status := WAITING_HUMAN), g.(status := WAITING_HUMAN, waitReason := Some(MR_CLOSED)), e,
      config);
    var (restarted, s', g') := Restarted(db, s, g, config);
    QueuedIndexes(restarted, s', g', e, event, config);
    QueuedIndexes(db, s, g, e, event, config);
  }

  lemma StartedIndexes(db: Database, d: Delivery, decision: Decision, config: Config, issueIid: int)
    ensures var q := Started(db, d, decision, config, issueIid).0;
            db.deliveries.Keys <= q.deliveries.Keys && db.actions.Keys <= q.actions.Keys && Clashes(q, d.event)
  {
    hide FirstSession, FirstGeneration, NewTurn, Logged, NewJob;
  }

  lemma HandledIndexes(db: Database, s: IssueSession, g: IssueGeneration, d: Delivery, decision: Decision,
      config: Config)
    ensures var q := Handled(db, s, g, d, decision, config).0;
            db.deliveries.Keys <= q.deliveries.Keys && db.actions.Keys <= q.actions.Keys && Clashes(q, d.event)
  {
    var seen := Seen(db, s.id, g.id, d.event, decision);
    assert db.deliveries.Keys <= seen.deliveries.Keys && db.actions.Keys <= seen.actions.Keys && Clashes(seen, d.event);
    ReactionIndexes(seen, s, g, d.event, decision, db.nextId, config);
    hide Reaction, Seen;
  }

  lemma OnlyRecordedIndexes(db: Database, e: Event, authorized: bool, reason: string)
    ensures var q := OnlyRecorded(db, e, authorized, reason).0;
            db.deliveries.Keys <= q.deliveries.Keys && db.actions.Keys <= q.actions.Keys && Clashes(q, e)
  {
  }

  /** Deliveries are never forgotten, and every delivery to a sound database is remembered. */
  lemma DeliveryIsRemembered(db: Database, d: Delivery, config: Config)
    requires Sound(db)
    ensures var q := Ingested(db, d, config).0;
            db.deliveries.Keys <= q.deliveries.Keys && db.actions.Keys <= q.actions.Keys && Clashes(q, d.event)
  {
    hide Sound, Ingested, Clashes, OnlyRecorded, Resolved, Started, Handled, Authorize;
    var e := d.event;
    IngestedCases(db, d, config);
    ResolvedStands(db, e);
    if e.issueIid.Some? {
      StartedIndexes(db, d, Authorize(d), config, e.issueIid.value);
    }
    if Resolved(db, e).Some? {
      var s := Resolved(db, e).value;
      OwnGeneration(db, s.id);
      HandledIndexes(db, s, db.generations[s.active.value], d, Authorize(d), config);
    }
    forall authorized, reason
      ensures var q := OnlyRecorded(db, e, authorized, reason).0;
              db.deliveries.Keys <= q.deliveries.Keys && db.actions.Keys <= q.actions.Keys && Clashes(q, e)
    {
      OnlyRecordedIndexes(db, e, authorized, reason);
    }
  }

  lemma WithTurnIndexes(db: Database, turn: Turn, s: IssueSession, g: IssueGeneration)
    ensures SameIndexes(db, WithTurn(db, turn, s, g))
  {
    hide NewJob;
  }

  lemma BothSavedIndexes(db: Database, s: IssueSession, g: IssueGeneration)
    ensures SameIndexes(db, BothSaved(db, s, g))
  {
  }

  lemma RemediatedIndexes(db: Database, s: IssueSession, g: IssueGeneration)
    ensures SameIndexes(db, Remediated(db, s, g))
  {
    hide WithTurn, Logged, RemediationTurn;
    var s', g' := s.(status := QUEUED), g.(status := QUEUED, remediationAttempts := g.remediationAttempts + 1);
    var saved := BothSaved(db, s', g');
    WithTurnIndexes(saved, RemediationTurn(saved.sessions[s.id], saved.generations[g.id]), saved.sessions[s.id],
      saved.generations[g.id]);
  }

  lemma RetriedIndexes(db: Database, s: IssueSession, g: IssueGeneration, maxSteps: nat)
    ensures SameIndexes(db, Retried(db, s, g, maxSteps))
  {
    hide WithTurn, Logged, BothSaved, NewTurn;
    var turn := NewTurn(0, g, s.id, "retry", maxSteps, Operator);
    WithTurnIndexes(db, turn, s, g);
    BothSavedIndexes(WithTurn(db, turn, s, g), s.(status := QUEUED),
                     g.(status := QUEUED, waitReason := None, cancelRequested := false));
  }

  lemma OpenedIndexes(db: Database, s: IssueSession, g: IssueGeneration)
    ensures SameIndexes(db, Opened(db, s, g))
    ensures SameIndexes(db, db.(nextId := db.nextId + 1, sessions := db.sessions[s.id := s],
                                generations := db.generations[db.nextId := g]))
  {
  }

  lemma PreparedIndexes(db: Database, d: Delivery, issueIid: int)
    ensures SameIndexes(db, Prepared(db, d, issueIid).0)
  {
    hide FirstSession, NewGeneration, FindIssue, SameIndexes, Opened;
    var (begun, s, g) := Prepared(db, d, issueIid);
    OpenedIndexes(db, s, g);
  }

  lemma LoggedIndexes(db: Database, events: seq<SessionEvent>)
    ensures SameIndexes(db, db.(events := events))
  {
  }

  lemma OperatorStartedIndexes(db: Database, d: Delivery, issueIid: int)
    ensures SameIndexes(db, OperatorStarted(db, d, issueIid))
  {
    hide WithTurn, Logged, NewTurn, Prepared, SameIndexes;
    var (begun, s, g) := Prepared(db, d, issueIid);
    PreparedIndexes(db, d, issueIid);
    var turn := NewTurn(0, g, s.id, "code", OPERATOR_MAX_STEPS, Operator);
    WithTurnIndexes(begun, turn, s, g);
    var events := Logged(db.events, s.id, Some(g.id), Some(begun.nextId), "lifecycle");
    LoggedIndexes(WithTurn(begun, turn, s, g), events);
    ThreeIndexes(db, begun, WithTurn(begun, turn, s, g), OperatorStarted(db, d, issueIid));
  }

  lemma ThreeIndexes(a: Database, b: Database, c: Database, d: Database)
    requires SameIndexes(a, b) && SameIndexes(b, c) && SameIndexes(c, d)
    ensures SameIndexes(a, d)
  {
  }

  /** Nothing but a delivery touches the indexes of what was delivered. */
  lemma OtherIndexes(db: Database, step: Step, config: Config)
    requires !step.Deliver?
    ensures SameIndexes(db, Do(db, step, config))
  {
    hide *;
    match step
    case Remediate(s, g) => RemediateIndexes(db, s, g, config);
    case GiveUp(s, g) => GiveUpIndexes(db, s, g, config);
    case Settle(t, end) => SettleIndexes(db, t, end, config);
    case Restate(_, _, _, _, _) => RestateIndexes(db, step, config);
    case Retry(s, maxSteps) => RetryIndexes(db, s, maxSteps, config);
    case OperatorStart(d, issueIid) => StartIndexes(db, d, issueIid, config);
    case Link(link) => LinkIndexes(db, link, config);
  }

  lemma RemediateIndexes(db: Database, s: Id, g: Id, config: Config)
    ensures SameIndexes(db, Do(db, Remediate(s, g), config))
  {
    hide Remediated;
    if Present(db, s, g) {
      RemediatedIndexes(db, db.sessions[s], db.generations[g]);
    }
  }

  lemma GiveUpIndexes(db: Database, s: Id, g: Id, config: Config)
    ensures SameIndexes(db, Do(db, GiveUp(s, g), config))
  {
    hide BothSaved;
    if Present(db, s, g) {
      BothSavedIndexes(db, db.sessions[s].(status := WAITING_HUMAN),
                       db.generations[g].(status := WAITING_HUMAN, waitReason := Some(REMEDIATION_EXHAUSTED)));
    }
  }

  lemma SettleIndexes(db: Database, t: Id, end: TurnStatus, config: Config)
    ensures SameIndexes(db, Do(db, Settle(t, end), config))
  {
  }

  lemma RestateIndexes(db: Database, step: Step, config: Config)
    requires step.Restate?
    ensures SameIndexes(db, Do(db, step, config))
  {
    hide BothSaved;
    if Present(db, step.session, step.generation) {
      BothSavedIndexes(db, db.sessions[step.session].(status := step.status),
                       db.generations[step.generation].(status := step.status, waitReason := step.waitReason,
                         cancelRequested := step.cancel));
    }
  }

  lemma RetryIndexes(db: Database, s: Id, maxSteps: nat, config: Config)
    ensures SameIndexes(db, Do(db, Retry(s, maxSteps), config))
  {
    hide Retried;
    if Retriable(db, s) {
      RetriedIndexes(db, db.sessions[s], db.generations[db.sessions[s].active.value], maxSteps);
    }
  }

  lemma StartIndexes(db: Database, d: Delivery, issueIid: int, config: Config)
    ensures SameIndexes(db, Do(db, OperatorStart(d, issueIid), config))
  {
    hide OperatorStarted;
    OperatorStartedIndexes(db, d, issueIid);
  }

  lemma LinkIndexes(db: Database, link: ScmLink, config: Config)
    ensures SameIndexes(db, Do(db, Link(link), config))
  {
    hide Without;
  }

  lemma IndexesGrow(db: Database, step: Step, config: Config)
    requires Sound(db)
    ensures var q := Do(db, step, config); db.deliveries.Keys <= q.deliveries.Keys && db.actions.Keys <= q.actions.Keys
  {
    hide Sound, Ingested;
    if step.Deliver? {
      DeliveryIsRemembered(db, step.delivery, config);
    } else {
      hide Do;
      OtherIndexes(db, step, config);
    }
  }

  lemma ClashesStay(db: Database, step: Step, config: Config, e: Event)
    requires Sound(db) && Clashes(db, e)
    ensures Clashes(Do(db, step, config), e)
  {
    hide Sound, Do;
    IndexesGrow(db, step, config);
  }

  /** What was delivered during a run is a duplicate after it. */
  lemma {:induction false} Remembered(steps: seq<Step>, config: Config, i: nat)
    requires i < |steps| && steps[i].Deliver?
    ensures Clashes(Run(EMPTY, steps, config), steps[i].delivery.event)
  {
    var n := |steps| - 1;
    hide Sound, Clashes, Ingested;
    RunKeeps(steps[..n], config);
    if i == n {
      DeliveryIsRemembered(Run(EMPTY, steps[..n], config), steps[n].delivery, config);
    } else {
      Remembered(steps[..n], config, i);
      hide Do;
      ClashesStay(Run(EMPTY, steps[..n], config), steps[n], config, steps[i].delivery.event);
    }
  }

  /** A step delivers again what came before. */
  predicate Redelivers(before: seq<Step>, step: Step) {
    step.Deliver? && exists i ::
            0 <= i < |before| && before[i].Deliver?
            && before[i].delivery.event.delivery == step.delivery.event.delivery
  }

  /** The steps without the redeliveries. */
  function Once(steps: seq<Step>): seq<Step> {
    if steps == [] then []
    else
      var n := |steps| - 1;
      Once(steps[..n]) + if Redelivers(steps[..n], steps[n]) then [] else [steps[n]]
  }

  /**
   A delivery id that comes again carries the same event, or is stored by then: it may carry another event only after
   an event that was recorded under it, and not after one that clashed on project, object and action.
   */
  predicate Consistent(steps: seq<Step>, config: Config) {
    forall i, j | 0 <= i < j < |steps| && steps[i].Deliver? && steps[j].Deliver?
                  && steps[i].delivery.event.delivery == steps[j].delivery.event.delivery ::
      || steps[i].delivery.event == steps[j].delivery.event
      || steps[j].delivery.event.delivery in Run(EMPTY, steps[..j], config).deliveries
  }

  lemma ConsistentFront(steps: seq<Step>, config: Config)
    requires Consistent(steps, config) && steps != []
    ensures Consistent(steps[..|steps| - 1], config)
  {
    hide Run;
    var front := steps[..|steps| - 1];
    forall i, j | 0 <= i < j < |front| && front[i].Deliver? && front[j].Deliver?
                  && front[i].delivery.event.delivery == front[j].delivery.event.delivery
      ensures || front[i].delivery.event == front[j].delivery.event
              || front[j].delivery.event.delivery in Run(EMPTY, front[..j], config).deliveries
    {
      assert front[i] == steps[i] && front[j] == steps[j] && front[..j] == steps[..j];
    }
  }

  /** The last step, if it delivers an id again, clashes. */
  lemma RedeliveryClashes(steps: seq<Step>, config: Config)
    requires Consistent(steps, config) && steps != [] && Redelivers(steps[..|steps| - 1], steps[|steps| - 1])
    ensures Clashes(Run(EMPTY, steps[..|steps| - 1], config), steps[|steps| - 1].delivery.event)
  {
    var n := |steps| - 1;
    var front, last := steps[..n], steps[n];
    assert forall i | 0 <= i < n :: front[i] == steps[i];
    hide Run;
    var i :| 0 <= i < n && front[i].Deliver? && front[i].delivery.event.delivery == last.delivery.event.delivery;
    Remembered(front, config, i);
  }

  lemma RunMore(steps: seq<Step>, last: Step, config: Config)
    ensures Run(EMPTY, steps + [last], config) == Do(Run(EMPTY, steps, config), last, config)
  {
    assert (steps + [last])[..|steps|] == steps;
  }

  /**
   Idempotence: however often events are delivered again, between whatever other steps and even with other
   memberships, the database is the one that the first deliveries alone would leave.
   */
  lemma {:induction false} RedeliveriesChangeNothing(steps: seq<Step>, config: Config)
    requires Consistent(steps, config)
    ensures Run(EMPTY, steps, config) == Run(EMPTY, Once(steps), config)
  {
    hide Do, Consistent;
    if steps != [] {
      var n := |steps| - 1;
      var front, last := steps[..n], steps[n];
      ConsistentFront(steps, config);
      RedeliveriesChangeNothing(front, config);
      if Redelivers(front, last) {
        RedeliveryClashes(steps, config);
        DuplicateIsNoop(Run(EMPTY, front, config), last.delivery, config);
        assert Once(steps) == Once(front);
      } else {
        RunMore(Once(front), last, config);
      }
    }
  }

  /** A delivery that clashes on its id or on project, object and action leaves nothing behind. */
  lemma DuplicateIsNoop(db: Database, d: Delivery, config: Config)
    requires Clashes(db, d.event)
    ensures Do(db, Deliver(d), config) == db && Ingested(db, d, config).1.verdict == Duplicate
  {
    hide Clashes, Handled, Started, OnlyRecorded, Authorize, Resolved;
  }

  // ---------------------------------------------------------------- completed sessions

  /** Nothing of a session has changed: neither its row, nor its generations, nor its turns. */
  predicate SameSession(db: Database, q: Database, id: Id) {
    && id in db.sessions && id in q.sessions && q.sessions[id] == db.sessions[id]
    && (forall g | g in q.generations && q.generations[g].session == id ::
            g in db.generations
            && q.generations[g] == db.generations[g])
    && (forall t | t in q.turns && q.turns[t].session == id :: t in db.turns && q.turns[t] == db.turns[t])
  }

  lemma OtherBothSaved(db: Database, s: IssueSession, g: IssueGeneration, id: Id)
    requires id in db.sessions && s.id != id && g.session != id
    ensures SameSession(db, BothSaved(db, s, g), id)
  {
  }

  lemma OtherWithTurn(db: Database, turn: Turn, s: IssueSession, g: IssueGeneration, id: Id)
    requires id in db.sessions && turn.session != id
    ensures SameSession(db, WithTurn(db, turn, s, g), id)
  {
    hide NewJob;
  }

  lemma OutsideSession(db: Database, q: Database, r: Database, id: Id)
    requires SameSession(db, q, id) && r.sessions == q.sessions && r.generations == q.generations && r.turns == q.turns
    ensures SameSession(db, r, id)
  {
  }

  lemma SameTwice(db: Database, q: Database, r: Database, id: Id)
    requires SameSession(db, q, id) && SameSession(q, r, id)
    ensures SameSession(db, r, id)
  {
  }

  lemma OtherQueued(db: Database, s: IssueSession, g: IssueGeneration, e: Event, event: Id, config: Config, id: Id)
    requires id in db.sessions && s.id != id && g.session != id
    ensures SameSession(db, Queued(db, s, g, e, event, config).0, id)
  {
    hide SameSession, WithTurn, BothSaved;
    var turn := FollowUpTurn(s, g, e, event, config);
    OtherWithTurn(db, turn, s, g, id);
    var scheduled := WithTurn(db, turn, s, g);
    assert id in scheduled.sessions by { WithTurnFrame(db, turn, s, g); }
    var consumed := Consumed(scheduled, event, db.nextId);
    OutsideSession(db, scheduled, consumed, id);
    OtherBothSaved(consumed, s.(status := QUEUED), g.(status := QUEUED, waitReason := None), id);
    SameTwice(db, consumed, Queued(db, s, g, e, event, config).0, id);
  }

  lemma OtherRestarted(db: Database, s: IssueSession, g: IssueGeneration, config: Config, id: Id)
    requires id in db.sessions && s.id != id
    ensures var (q, s', g') := Restarted(db, s, g, config);
            SameSession(db, q, id) && s'.id == s.id && g'.session == s.id
  {
  }

  lemma NothingChanged(db: Database, id: Id)
    requires id in db.sessions
    ensures SameSession(db, db, id)
  {
  }

  lemma OtherReaction(db: Database, s: IssueSession, g: IssueGeneration, e: Event, decision: Decision, event: Id,
      config: Config, id: Id)
    requires id in db.sessions && g.session == s.id && (s.id == id ==> s.status == COMPLETED)
    ensures SameSession(db, Reaction(db, s, g, e, decision, event, config).0, id)
  {
    hide SameSession, Queued, ShouldQueue, Restarts, BothSaved, Restarted, MergedBecause, Logged;
    NothingChanged(db, id);
    OutsideSession(db, db, Noted(db, StatusNote(s.id, e.delivery), OutboundAction(s.id, g.id, None)), id);
    if s.id != id {
      OtherBothSaved(db, s.(status := CANCELLED), g.(cancelRequested := true, status := CANCELLED), id);
      OtherBothSaved(db, s.(status := WAITING_HUMAN), g.(status := WAITING_HUMAN, waitReason := Some(MR_CLOSED)), id);
      var merged := g.(status := COMPLETED, mergeReason := Some(MergedBecause(db, g, e)), waitReason := None,
          cancelRequested := true);
      OtherBothSaved(db, s.(status := COMPLETED), merged, id);
      OutsideSession(db, BothSaved(db, s.(status := COMPLETED), merged), Merged(db, s, g, e), id);
      var (restarted, s', g') := Restarted(db, s, g, config);
      OtherRestarted(db, s, g, config, id);
      assert id in restarted.sessions by { StillThere(db, restarted, id); }
      OtherQueued(restarted, s', g', e, event, config, id);
      SameTwice(db, restarted, Queued(restarted, s', g', e, event, config).0, id);
      OtherQueued(db, s, g, e, event, config, id);
    }
  }

  lemma StillThere(db: Database, q: Database, id: Id)
    requires SameSession(db, q, id)
    ensures id in q.sessions
  {
  }

  lemma OtherStarted(db: Database, d: Delivery, decision: Decision, config: Config, issueIid: int, id: Id)
    requires Sound(db) && id in db.sessions
    ensures SameSession(db, Started(db, d, decision, config, issueIid).0, id)
  {
    hide Sound, WithTurn, Recorded, FirstSession, FirstGeneration, NewTurn, NewInbound, SameSession, Logged;
    FreshIds(db);
    var e, n := d.event, db.nextId;
    var s, g := FirstSession(n, d, issueIid), FirstGeneration(n, e, config);
    OpenedFacts(db, d, issueIid, config);
    var turn := NewTurn(0, g, n, "code", config.turnMaxSteps, FirstTurn);
    NewTurnFacts(g, n, "code", config.turnMaxSteps, FirstTurn);
    var event := NewInbound(0, e, true, Or(decision.reason, "start authorized"), Some(n), Some(n + 1));
    OtherOpened(db, s, g, id);
    var begun := Opened(db, s, g);
    OtherWithTurn(begun, turn, s, g, id);
    var scheduled := WithTurn(begun, turn, s, g);
    SameTwice(db, begun, scheduled, id);
    RecordedFacts(scheduled, event, n + 2);
    OutsideSession(db, scheduled, Started(db, d, decision, config, issueIid).0, id);
  }

  lemma OtherOpened(db: Database, s: IssueSession, g: IssueGeneration, id: Id)
    requires id in db.sessions && s.id != id && g.session == s.id
    ensures SameSession(db, Opened(db, s, g), id)
  {
  }

  lemma HandledIs(db: Database, s: IssueSession, g: IssueGeneration, d: Delivery, decision: Decision, config: Config)
    ensures var seen := Seen(db, s.id, g.id, d.event, decision);
            && Handled(db, s, g, d, decision, config) == Reaction(seen, s, g, d.event, decision, db.nextId, config)
            && seen.sessions == db.sessions && seen.generations == db.generations && seen.turns == db.turns
  {
  }

  /** No event changes a completed session. */
  lemma CompletedUntouched(db: Database, d: Delivery, config: Config, id: Id)
    requires Sound(db) && id in db.sessions && db.sessions[id].status == COMPLETED
    ensures SameSession(db, Ingested(db, d, config).0, id)
  {
    hide Sound, Ingested, Clashes, Resolved, Started, Handled, Authorize;
    var e := d.event;
    IngestedCases(db, d, config);
    ResolvedStands(db, e);
    if e.issueIid.Some? {
      OtherStarted(db, d, Authorize(d), config, e.issueIid.value, id);
    }
    if Resolved(db, e).Some? {
      var s := Resolved(db, e).value;
      OwnGeneration(db, s.id);
      var g := db.generations[s.active.value];
      HandledIs(db, s, g, d, Authorize(d), config);
      var seen := Seen(db, s.id, g.id, e, Authorize(d));
      hide Reaction, Seen;
      OtherReaction(seen, s, g, e, Authorize(d), db.nextId, config, id);
    }
  }

  function DeliverAll(db: Database, deliveries: seq<Delivery>, config: Config): Database {
    if deliveries == [] then db
    else Ingested(DeliverAll(db, deliveries[..|deliveries| - 1], config), deliveries[|deliveries| - 1], config).0
  }

  /** Within ingestion a completed session is final. */
  lemma {:induction false} CompletedIsFinal(db: Database, deliveries: seq<Delivery>, config: Config, id: Id)
    requires Sound(db) && id in db.sessions && db.sessions[id].status == COMPLETED
    ensures Sound(DeliverAll(db, deliveries, config)) && SameSession(db, DeliverAll(db, deliveries, config), id)
  {
    hide Sound, Ingested;
    if deliveries != [] {
      var n := |deliveries| - 1;
      CompletedIsFinal(db, deliveries[..n], config, id);
      DeliverSound(DeliverAll(db, deliveries[..n], config), deliveries[n], config);
      CompletedUntouched(DeliverAll(db, deliveries[..n], config), deliveries[n], config, id);
    }
  }

  /**
   Across the other transactions it is not: remediation looks at active turns only, so it leaves a completed session
   completed exactly when its generation still has an active turn.
   */
  lemma RemediationRevives(db: Database, s: Id, g: Id, config: Config)
    requires Sound(db) && Present(db, s, g) && db.sessions[s].status == COMPLETED
    ensures s in Do(db, Remediate(s, g), config).sessions
    ensures Do(db, Remediate(s, g), config).sessions[s].status == COMPLETED <==> g in db.activeTurns
  {
    hide Sound, Remediated;
    TablesAgree(db, s, g);
    RemediatedSession(db, db.sessions[s], db.generations[g]);
  }

  /** The label event and the merge event of one issue. */
  function Labelled(issueIid: int): Event {
    Event("d1", "Issue Hook", "open", "issue", "", 0, "", "", Some(issueIid), "", None, "", None, None, true, "", "",
      "", true, "")
  }

  function MergedEvent(issueIid: int): Event {
    Event("d2", "Merge Request Hook", "merge", "mr", "", 0, "", "", Some(issueIid), "", None, "", None, None, false,
      "", "", "", true, "")
  }

  const ANYONE := Registration("", "", "", "", "", {}, None, 0)

  function From(e: Event): Delivery {
    Delivery(e, ANYONE, (_, _) => None)
  }

  /** A label starts a session, its turn succeeds, and its merge request is opened. */
  function Opening(issueIid: int): seq<Step> {
    [Deliver(From(Labelled(issueIid))), Settle(2, SucceededTurn), Link(ScmLink(0, 1, 0, Some(1), "")),
     Restate(0, 1, AWAITING_MERGE, None, false)]
  }

  function Merging(issueIid: int): Step {
    Deliver(From(MergedEvent(issueIid)))
  }

  /**
   A run that shows it: the generation awaits its merge with remediation attempts left, so that a failed pipeline
   passes the checks before the transaction; the merge completes the session, and the transaction queues it again.
   */
  lemma RevivedAfterMerge(issueIid: int, config: Config)
    ensures var opening := Opening(issueIid);
            var merged := opening + [Merging(issueIid)];
            var asked, before := Run(EMPTY, opening, config), Run(EMPTY, merged, config);
            var after := Run(EMPTY, merged + [Remediate(0, 1)], config);
            && 1 in asked.generations && MayRemediate(asked.generations[1]) && 1 !in asked.activeTurns
            && 0 in before.sessions && before.sessions[0].status == COMPLETED
            && 0 in after.sessions && after.sessions[0].status == QUEUED
  {
    hide *;
    var merged := Opening(issueIid) + [Merging(issueIid)];
    OpensIt(issueIid, config);
    var asked := Run(EMPTY, Opening(issueIid), config);
    MayRemediateIt(asked, issueIid);
    MergesIt(asked, issueIid, config);
    RunMore(Opening(issueIid), Merging(issueIid), config);
    RunMore(merged, Remediate(0, 1), config);
    RunKeeps(merged, config);
    RemediatesIt(Run(EMPTY, merged, config), config);
  }

  lemma OpensIt(issueIid: int, config: Config)
    ensures Begun(Run(EMPTY, Opening(issueIid), config), issueIid, AWAITING_MERGE, SucceededTurn)
  {
    hide *;
    var start, link := Deliver(From(Labelled(issueIid))), ScmLink(0, 1, 0, Some(1), "");
    StartsIt(issueIid, config);
    var s1 := Do(EMPTY, start, config);
    SettlesIt(s1, issueIid, config);
    var s2 := Do(s1, Settle(2, SucceededTurn), config);
    LinksIt(s2, issueIid, link, config);
    AwaitsIt(Do(s2, Link(link), config), issueIid, config);
    RunFour(start, Settle(2, SucceededTurn), Link(link), Restate(0, 1, AWAITING_MERGE, None, false), config);
    OpeningIs(issueIid);
  }

  lemma OpeningIs(issueIid: int)
    ensures Opening(issueIid) ==
            [Deliver(From(Labelled(issueIid))), Settle(2, SucceededTurn), Link(ScmLink(0, 1, 0, Some(1), "")),
             Restate(0, 1, AWAITING_MERGE, None, false)]
  {
    hide Labelled, From;
  }

  lemma RunFour(a: Step, b: Step, c: Step, d: Step, config: Config)
    ensures Run(EMPTY, [a, b, c, d], config) == Do(Do(Do(Do(EMPTY, a, config), b, config), c, config), d, config)
  {
    hide Do;
    RunMore([], a, config);
    RunMore([a], b, config);
    RunMore([a, b], c, config);
    RunMore([a, b, c], d, config);
    assert [] + [a] == [a] && [a] + [b] == [a, b] && [a, b] + [c] == [a, b, c] && [a, b, c] + [d] == [a, b, c, d];
  }

  /** One session, one generation and one turn, all from the label event. */
  predicate Begun(db: Database, issueIid: int, status: GenerationStatus, turn: TurnStatus) {
    && db.issues == map[IssueKey("", 0, issueIid) := 0] && db.sessions.Keys == {0} && db.generations.Keys == {1}
    && db.sessions[0].id == 0 && db.sessions[0].active == Some(1) && db.sessions[0].status == status
    && db.sessions[0].key == IssueKey("", 0, issueIid)
    && db.generations[1].id == 1 && db.generations[1].session == 0 && db.generations[1].status == status
    && db.generations[1].remediationAttempts == 0
    && db.turns.Keys == {2} && db.turns[2].id == 2 && db.turns[2].status == turn
    && db.activeTurns == (if IsActive(turn) then map[1 := 2] else map[])
    && db.deliveries.Keys == {"d1"} && db.actions.Keys == {ActionKey(0, "issue", "open")}
  }

  lemma MayRemediateIt(db: Database, issueIid: int)
    requires Begun(db, issueIid, AWAITING_MERGE, SucceededTurn)
    ensures 1 in db.generations && MayRemediate(db.generations[1]) && 1 !in db.activeTurns
  {
  }

  lemma StartsByLabel(issueIid: int, config: Config)
    ensures var d := From(Labelled(issueIid));
            Ingested(EMPTY, d, config) ==
            Started(EMPTY, d, Authorize(d), config, issueIid)
  {
    hide Started, Handled, OnlyRecorded;
    var d := From(Labelled(issueIid));
    assert Resolved(EMPTY, d.event).None? && Authorize(d).authorized && !Clashes(EMPTY, d.event);
  }

  lemma StartedIsBegun(issueIid: int, config: Config, decision: Decision)
    ensures Begun(Started(EMPTY, From(Labelled(issueIid)), decision, config, issueIid).0, issueIid, QUEUED,
              QueuedTurn)
  {
    hide Started;
    StartedSession(issueIid, config, decision);
    StartedTurn(issueIid, config, decision);
    StartedEvent(issueIid, config, decision);
  }

  lemma StartedSession(issueIid: int, config: Config, decision: Decision)
    ensures var q := Started(EMPTY, From(Labelled(issueIid)), decision, config, issueIid).0;
            var s, g := FirstSession(0, From(Labelled(issueIid)), issueIid), FirstGeneration(0, Labelled(issueIid),
              config);
            && s.key == IssueKey("", 0, issueIid) && q.sessions == map[0 := s] && q.generations == map[1 := g]
            && q.issues == map[s.key := 0]
  {
    hide Logged, Or, NewTurn, NewJob, NewInbound;
  }

  lemma StartedTurn(issueIid: int, config: Config, decision: Decision)
    ensures var q := Started(EMPTY, From(Labelled(issueIid)), decision, config, issueIid).0;
            && q.turns.Keys == {2} && q.turns[2].id == 2 && q.turns[2].status == QueuedTurn
            && q.activeTurns == map[1 := 2]
  {
    hide Logged, Or, FirstSession, NewJob, NewInbound;
  }

  lemma StartedEvent(issueIid: int, config: Config, decision: Decision)
    ensures var q := Started(EMPTY, From(Labelled(issueIid)), decision, config, issueIid).0;
            q.deliveries.Keys == {"d1"} && q.actions.Keys == {ActionKey(0, "issue", "open")}
  {
    hide Logged, Or, FirstSession, FirstGeneration, NewTurn, NewJob;
  }

  lemma StartsIt(issueIid: int, config: Config)
    ensures Begun(Do(EMPTY, Deliver(From(Labelled(issueIid))), config), issueIid, QUEUED, QueuedTurn)
  {
    hide Ingested, Started, Authorize, Begun;
    StartsByLabel(issueIid, config);
    StartedIsBegun(issueIid, config, Authorize(From(Labelled(issueIid))));
  }

  lemma SettlesIt(db: Database, issueIid: int, config: Config)
    requires Begun(db, issueIid, QUEUED, QueuedTurn)
    ensures Begun(Do(db, Settle(2, SucceededTurn), config), issueIid, QUEUED, SucceededTurn)
  {
  }

  lemma LinksIt(db: Database, issueIid: int, link: ScmLink, config: Config)
    requires Begun(db, issueIid, QUEUED, SucceededTurn)
    ensures Begun(Do(db, Link(link), config), issueIid, QUEUED, SucceededTurn)
  {
    hide Without;
  }

  lemma AwaitsIt(db: Database, issueIid: int, config: Config)
    requires Begun(db, issueIid, QUEUED, SucceededTurn)
    ensures Begun(Do(db, Restate(0, 1, AWAITING_MERGE, None, false), config), issueIid, AWAITING_MERGE, SucceededTurn)
  {
  }

  lemma MergesIt(db: Database, issueIid: int, config: Config)
    requires Begun(db, issueIid, AWAITING_MERGE, SucceededTurn)
    ensures var q := Do(db, Merging(issueIid), config);
            && 0 in q.sessions && 1 in q.generations && q.sessions[0].status == COMPLETED && q.activeTurns == map[]
  {
    hide Ingested, Authorize, Logged, MergedBecause, Reaction, Handled;
    var m := From(MergedEvent(issueIid));
    var e, s, g := m.event, db.sessions[0], db.generations[1];
    MergeIsHandled(db, issueIid, config);
    HandledIs(db, s, g, m, Authorize(m), config);
    MergeReacts(Seen(db, 0, 1, e, Authorize(m)), s, g, issueIid, Authorize(m), db.nextId, config);
  }

  lemma MergeIsHandled(db: Database, issueIid: int, config: Config)
    requires Begun(db, issueIid, AWAITING_MERGE, SucceededTurn)
    ensures var m := From(MergedEvent(issueIid));
            Ingested(db, m, config) == Handled(db, db.sessions[0], db.generations[1], m, Authorize(m), config)
  {
    hide Handled, Started, OnlyRecorded;
    var m := From(MergedEvent(issueIid));
    assert !Clashes(db, m.event) by {
      assert m.event.delivery != "d1" && KeyOf(m.event).objectKey != "issue";
    }
    assert Resolved(db, m.event) == Some(db.sessions[0]);
  }

  lemma MergeReacts(db: Database, s: IssueSession, g: IssueGeneration, issueIid: int, decision: Decision, event: Id,
      config: Config)
    requires s.status == AWAITING_MERGE
    ensures Reaction(db, s, g, MergedEvent(issueIid), decision, event, config).0 ==
            Merged(db, s, g, MergedEvent(issueIid))
  {
    hide Queued, ShouldQueue, Restarts, BothSaved, Restarted, Merged, Noted;
  }

  lemma RemediatedSession(db: Database, s: IssueSession, g: IssueGeneration)
    ensures Remediated(db, s, g).sessions == db.sessions[s.id := s.(status := QUEUED, version := s.version + 1)]
  {
    hide WithTurn, RemediationTurn, Logged;
    var s', g' := s.(status := QUEUED), g.(status := QUEUED, remediationAttempts := g.remediationAttempts + 1);
    var saved := BothSaved(db, s', g');
    WithTurnFrame(saved, RemediationTurn(saved.sessions[s.id], saved.generations[g.id]), saved.sessions[s.id],
      saved.generations[g.id]);
  }

  lemma RemediatesIt(db: Database, config: Config)
    requires Sound(db) && 0 in db.sessions && 1 in db.generations && db.sessions[0].status == COMPLETED
             && 1 !in db.activeTurns
    ensures 0 in Do(db, Remediate(0, 1), config).sessions
            && Do(db, Remediate(0, 1), config).sessions[0].status == QUEUED
  {
    hide Sound, Remediated;
    TablesAgree(db, 0, 1);
    RemediatedSession(db, db.sessions[0], db.generations[1]);
  }

  // ---------------------------------------------------------------- pipelines queue nothing

  /** Neither the type of an event nor the status of its pipeline has a say in queueing a turn. */
  lemma PipelineHasNoSay(g: IssueGeneration, e: Event, decision: Decision, eventType: string, pipelineStatus: string)
    ensures ShouldQueue(g, e, decision) ==
            ShouldQueue(g, e.(eventType := eventType, pipelineStatus := pipelineStatus), decision)
  {
  }

  lemma QuietQueuesNone(g: IssueGeneration, e: Event, decision: Decision)
    requires e.command == None && e.noteBody == ""
    ensures !ShouldQueue(g, e, decision)
  {
  }

  predicate SameTurns(db: Database, q: Database) {
    q.turns == db.turns && q.jobs == db.jobs
  }

  lemma SmallTurns(db: Database, s: IssueSession, g: IssueGeneration, e: Event)
    ensures SameTurns(db, BothSaved(db, s, g)) && SameTurns(db, Merged(db, s, g, e)) && SameTurns(db, db)
    ensures forall key, action :: SameTurns(db, Noted(db, key, action))
  {
    hide MergedBecause, Logged;
  }

  lemma QuietReaction(db: Database, s: IssueSession, g: IssueGeneration, e: Event, decision: Decision, event: Id,
      config: Config)
    requires e.command == None && e.noteBody == ""
    ensures SameTurns(db, Reaction(db, s, g, e, decision, event, config).0)
  {
    hide Queued, Restarted, BothSaved, Merged, Noted, ShouldQueue, Restarts, SameTurns;
    QuietQueuesNone(g, e, decision);
    SmallTurns(db, s, g, e);
    SmallTurns(db, s.(status := WAITING_HUMAN), g.(status := WAITING_HUMAN, waitReason := Some(MR_CLOSED)), e);
  }

  lemma QuietHandled(db: Database, s: IssueSession, g: IssueGeneration, d: Delivery, decision: Decision, config: Config)
    requires d.event.command == None && d.event.noteBody == ""
    ensures SameTurns(db, Handled(db, s, g, d, decision, config).0)
  {
    HandledIs(db, s, g, d, decision, config);
    var seen := Seen(db, s.id, g.id, d.event, decision);
    assert SameTurns(db, seen);
    hide Reaction, Seen, Handled;
    QuietReaction(seen, s, g, d.event, decision, db.nextId, config);
  }

  lemma OnlyRecordedTurns(db: Database, e: Event, authorized: bool, reason: string)
    ensures SameTurns(db, OnlyRecorded(db, e, authorized, reason).0)
  {
  }

  /**
   An event without a command, a comment or a start never queues a turn, a failed pipeline among them, whatever the
   state of its generation; a generation that awaits its merge is no exception.
   */
  lemma FailedPipelineQueuesNothing(db: Database, d: Delivery, config: Config)
    requires d.event.eventType == "Pipeline Hook" && d.event.pipelineStatus == "failed"
    requires d.event.command == None && d.event.noteBody == "" && !d.event.labelAdded
    ensures SameTurns(db, Ingested(db, d, config).0)
  {
    hide Clashes, Resolved, Started, Handled, Authorize, OnlyRecorded;
    var e := d.event;
    assert !IsStart(e);
    IngestedCases(db, d, config);
    hide Ingested, IsStart;
    if authorized: bool, reason: string :| Ingested(db, d, config).0 == OnlyRecorded(db, e, authorized, reason).0 {
      OnlyRecordedTurns(db, e, authorized, reason);
    }
    if Resolved(db, e).Some? && Resolved(db, e).value.active.Some?
        && Resolved(db, e).value.active.value in db.generations {
      var s := Resolved(db, e).value;
      QuietHandled(db, s, db.generations[s.active.value], d, Authorize(d), config);
    }
  }
}
