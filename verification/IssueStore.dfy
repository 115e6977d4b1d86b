/**
 The unit of work on the issue-session tables (src/gca/issue_sessions/store.py, lines 66-80 and 440-943) and the
 ingestor that uses it.  Each operation is one SQL statement; a transaction that fails leaves no trace.
 */
module IssueStore {
  import opened Wrappers
  import opened IssueModels
  import opened IssueIngestion

  datatype StoreError = DuplicateDelivery | Stale | SecondActiveTurn | NotFound | BrokenReference

  class IssueSessionStore {
    const config: Config
    var db: Database

    constructor (config: Config)
      ensures this.config == config && db == EMPTY
    {
      this.config := config;
      db := EMPTY;
    }

    // ------------------------------------------------------------ statements

    method InsertInboundEvent(event: InboundEvent) returns (r: Result<InboundEvent, StoreError>)
      modifies this
      ensures r.Failure? <==> event.delivery in old(db).deliveries || event.key in old(db).actions
      ensures r.Failure? ==> r.error == DuplicateDelivery && db == old(db)
      ensures r.Success? ==> r.value == event.(id := old(db).nextId) && db == Recorded(old(db), event)
    {
      if event.delivery in db.deliveries || event.key in db.actions {
        return Failure(DuplicateDelivery);
      }
      r := Success(event.(id := db.nextId));
      db := Recorded(db, event);
    }

    method UpsertSession(session: IssueSession) returns (s: IssueSession)
      modifies this
      ensures FindIssue(old(db), session.key).Some? ==> s == FindIssue(old(db), session.key).value && db == old(db)
      ensures FindIssue(old(db), session.key).None? ==>
                && s == session.(id := old(db).nextId)
                && db == old(db).(nextId := s.id + 1, sessions := old(db).sessions[s.id := s],
                  issues := old(db).issues[s.key := s.id])
    {
      var existing := FindIssue(db, session.key);
      if existing.Some? {
        return existing.value;
      }
      s := session.(id := db.nextId);
      db := db.(nextId := s.id + 1, sessions := db.sessions[s.id := s], issues := db.issues[s.key := s.id]);
    }

    method SaveSession(session: IssueSession) returns (r: Result<IssueSession, StoreError>)
      modifies this
      ensures r.Success? <==> session.id in old(db).sessions && old(db).sessions[session.id].version == session.version
      ensures r.Failure? ==> db == old(db)
      ensures r.Success? ==> r.value == session.(version := session.version + 1)
                             && db == old(db).(sessions := old(db).sessions[session.id := r.value])
    {
      if session.id !in db.sessions || db.sessions[session.id].version != session.version {
        return Failure(Stale);
      }
      r := Success(session.(version := session.version + 1));
      db := db.(sessions := db.sessions[session.id := r.value]);
    }

    method GetGeneration(id: Id) returns (r: Result<IssueGeneration, StoreError>)
      ensures r == if id in db.generations then Success(db.generations[id]) else Failure(NotFound)
    {
      return if id in db.generations then Success(db.generations[id]) else Failure(NotFound);
    }

    method GetSession(id: Id) returns (r: Result<IssueSession, StoreError>)
      ensures r == if id in db.sessions then Success(db.sessions[id]) else Failure(NotFound)
    {
      return if id in db.sessions then Success(db.sessions[id]) else Failure(NotFound);
    }

    method InsertGeneration(generation: IssueGeneration) returns (r: Result<IssueGeneration, StoreError>)
      modifies this
      ensures r.Success? <==> generation.session in old(db).sessions
      ensures r.Failure? ==> db == old(db)
      ensures r.Success? ==> r.value == generation.(id := old(db).nextId)
                             && db == old(db).(nextId := old(db).nextId + 1,
                               generations := old(db).generations[old(db).nextId := r.value])
    {
      if generation.session !in db.sessions {
        return Failure(BrokenReference);
      }
      r := Success(generation.(id := db.nextId));
      db := db.(nextId := db.nextId + 1, generations := db.generations[db.nextId := r.value]);
    }

    method SaveGeneration(generation: IssueGeneration) returns (r: Result<IssueGeneration, StoreError>)
      modifies this
      ensures r.Success? <==>
              generation.id in old(db).generations
              && old(db).generations[generation.id].version == generation.version
      ensures r.Failure? ==> db == old(db)
      ensures r.Success? ==> r.value == generation.(version := generation.version + 1)
                             && db == old(db).(generations := old(db).generations[generation.id := r.value])
    {
      if generation.id !in db.generations || db.generations[generation.id].version != generation.version {
        return Failure(Stale);
      }
      r := Success(generation.(version := generation.version + 1));
      db := db.(generations := db.generations[generation.id := r.value]);
    }

    /** Fails when the generation has an active turn already: the partial unique index. */
    method InsertTurn(turn: Turn) returns (r: Result<Turn, StoreError>)
      modifies this
      ensures r.Success? <==>
                && turn.session in old(db).sessions && turn.generation in old(db).generations
                && (IsActive(turn.status) ==> turn.generation !in old(db).activeTurns)
      ensures r.Failure? ==> db == old(db)
      ensures r.Success? ==>
                && r.value == turn.(id := old(db).nextId)
                && db == old(db).(nextId := old(db).nextId + 1, turns := old(db).turns[old(db).nextId := r.value],
                                  activeTurns := if IsActive(turn.status) then
                                    old(db).activeTurns[turn.generation := old(db).nextId]
                                                 else old(db).activeTurns)
    {
      if turn.session !in db.sessions || turn.generation !in db.generations
         || (IsActive(turn.status) && turn.generation in db.activeTurns) {
        return Failure(SecondActiveTurn);
      }
      var id := db.nextId;
      r := Success(turn.(id := id));
      if IsActive(turn.status) {
        db := db.(activeTurns := db.activeTurns[turn.generation := id]);
      }
      db := db.(nextId := id + 1, turns := db.turns[id := r.value]);
    }

    /** Saves a turn that stays in its generation and as active as it was. */
    method SaveTurn(turn: Turn) returns (r: Result<Turn, StoreError>)
      requires turn.id in db.turns ==>
                 db.turns[turn.id].generation == turn.generation
                   && IsActive(db.turns[turn.id].status) == IsActive(turn.status)
      modifies this
      ensures r.Success? <==> turn.id in old(db).turns && old(db).turns[turn.id].version == turn.version
      ensures r.Failure? ==> db == old(db)
      ensures r.Success? ==> r.value == turn.(version := turn.version + 1)
                             && db == old(db).(turns := old(db).turns[turn.id := r.value])
    {
      if turn.id !in db.turns || db.turns[turn.id].version != turn.version {
        return Failure(Stale);
      }
      r := Success(turn.(version := turn.version + 1));
      db := db.(turns := db.turns[turn.id := r.value]);
    }

    /** The job of a turn, and the turn that now names it. */
    method CreateTurnJob(turn: Turn, session: IssueSession, generation: IssueGeneration)
      returns (r: Result<(TurnJob, Turn), StoreError>)
      modifies this
      ensures r.Success? <==> turn.id !in old(db).jobOfTurn
      ensures r.Failure? ==> db == old(db)
      ensures r.Success? ==>
                && r.value == (NewJob(old(db).nextId, turn, session, generation), turn.(job := Some(old(db).nextId)))
                && db == old(db).(nextId := old(db).nextId + 1, jobs := old(db).jobs[old(db).nextId := r.value.0],
                                  jobOfTurn := old(db).jobOfTurn[turn.id := old(db).nextId])
    {
      if turn.id in db.jobOfTurn {
        return Failure(BrokenReference);
      }
      var id := db.nextId;
      var job := NewJob(id, turn, session, generation);
      db := db.(nextId := id + 1, jobs := db.jobs[id := job], jobOfTurn := db.jobOfTurn[turn.id := id]);
      return Success((job, turn.(job := Some(id))));
    }

    /** A turn and its job, in the order of the source: the turn is saved again once it names its job. */
    method ScheduleTurn(turn: Turn, session: IssueSession, generation: IssueGeneration)
        returns (r: Result<(Id, Id), StoreError>)
      requires turn.status == QueuedTurn && turn.job.None?
      modifies this
      ensures Schedulable(old(db), turn) ==>
                r == Success((old(db).nextId, old(db).nextId + 1)) && db == WithTurn(old(db), turn, session, generation)
    {
      var inserted :- InsertTurn(turn);
      var created :- CreateTurnJob(inserted, session, generation);
      var saved := SaveTurn(created.1);
      return Success((created.1.id, created.0.id));
    }

    method MarkEventConsumed(event: Id, turn: Id)
      modifies this
      ensures db == Consumed(old(db), event, turn)
    {
      if event in db.inbound {
        db := db.(inbound := db.inbound[event := db.inbound[event].(consumedBy := Some(turn))]);
      }
    }

    method AppendEvent(session: Id, generation: Option<Id>, turn: Option<Id>, kind: string)
      modifies this
      ensures db == old(db).(events := Logged(old(db).events, session, generation, turn, kind))
    {
      db := db.(events := Logged(db.events, session, generation, turn, kind));
    }

    /** An effect that is in the outbox already stays as it is. */
    method InsertOutboundAction(key: EffectKey, action: OutboundAction) returns (r: Result<(), StoreError>)
      modifies this
      ensures r.Success? <==>
              key in old(db).outbound
              || (action.session in old(db).sessions && action.generation in old(db).generations)
      ensures r.Failure? ==> db == old(db)
      ensures r.Success? ==> db == Noted(old(db), key, action)
    {
      if key in db.outbound {
        return Success(());
      }
      if action.session !in db.sessions || action.generation !in db.generations {
        return Failure(BrokenReference);
      }
      db := db.(outbound := db.outbound[key := action]);
      return Success(());
    }

    // ------------------------------------------------------------ ingestion

    /**
     One delivery in one transaction.  Whatever goes wrong, nothing is changed; and on a sound database nothing but
     a duplicate goes wrong, so the outcome is the specified one.
     */
    method Ingest(d: Delivery) returns (r: Result<IngestResult, StoreError>)
      modifies this
      ensures r.Failure? ==> db == old(db)
      ensures Sound(old(db)) ==> r.Success? && (db, r.value) == Ingested(old(db), d, config)
    {
      hide Sound;
      var snapshot := db;
      if d.event.delivery in db.deliveries && db.deliveries[d.event.delivery] in db.inbound {
        return Success(DuplicateOf(db, d.event));
      }
      r := Body(d);
      if r.Failure? {
        db := snapshot;
        if r.error == DuplicateDelivery {
          r := Success(IngestResult(Duplicate, None, None, None, None, None));
        }
      }
    }

    method Body(d: Delivery) returns (r: Result<IngestResult, StoreError>)
      requires d.event.delivery in db.deliveries ==> db.deliveries[d.event.delivery] !in db.inbound
      modifies this
      ensures Sound(old(db)) ==>
                if Clashes(old(db), d.event) then r == Failure(DuplicateDelivery)
                else r.Success? && (db, r.value) == Ingested(old(db), d, config)
    {
      hide Sound;
      var e := d.event;
      if !e.relevant {
        r := Record(e, false, e.ignoreReason);
        return;
      }
      var decision, session := Authorize(d), Resolved(db, e);
      if Sound(db) {
        ResolvedStands(db, e);
      }
      hide Authorize, Resolved, Handled, Started;
      if session.None? && !IsStart(e) {
        r := Record(e, decision.authorized, Or(decision.reason, "no open issue session"));
        return;
      }
      if session.None? {
        if !decision.authorized && e.command != RUN && e.actor.Some? {
          r := Record(e, false, decision.reason);
          return;
        }
        r := StartSession(d, decision);
        return;
      }
      r := HandleExisting(session.value, d, decision);
    }

    method Record(e: Event, authorized: bool, reason: string) returns (r: Result<IngestResult, StoreError>)
      modifies this
      ensures if Clashes(old(db), e) then r == Failure(DuplicateDelivery) && db == old(db)
              else r.Success? && (db, r.value) == OnlyRecorded(old(db), e, authorized, reason)
    {
      var stored :- InsertInboundEvent(NewInbound(0, e, authorized, reason, None, None));
      return Success(IngestResult(Ignored, None, None, None, None, Some(stored.id)));
    }

    method StartSession(d: Delivery, decision: Decision) returns (r: Result<IngestResult, StoreError>)
      modifies this
      ensures Sound(old(db)) && Resolved(old(db), d.event).None? ==>
                if Clashes(old(db), d.event) then r == Failure(DuplicateDelivery)
                else r.Success? &&
                     (db, r.value) ==
                     if d.event.issueIid.None? then OnlyRecorded(old(db), d.event, false, "missing issue iid")
                     else if d.event.command == RUN && !decision.authorized then
                       OnlyRecorded(old(db), d.event, false, decision.reason)
                     else Started(old(db), d, decision, config, d.event.issueIid.value)
    {
      hide Sound, Started, Resolved, OnlyRecorded;
      var e := d.event;
      if e.issueIid.None? {
        r := Record(e, false, "missing issue iid");
        return;
      }
      if e.command == RUN && !decision.authorized {
        r := Record(e, false, decision.reason);
        return;
      }
      r := Start(d, decision, e.issueIid.value);
    }

    method Start(d: Delivery, decision: Decision, issueIid: int) returns (r: Result<IngestResult, StoreError>)
      modifies this
      ensures Sound(old(db)) && Resolved(old(db), d.event).None? && d.event.issueIid == Some(issueIid) ==>
                if Clashes(old(db), d.event) then r == Failure(DuplicateDelivery)
                else r.Success? && (db, r.value) == Started(old(db), d, decision, config, issueIid)
    {
      hide Sound, FirstSession, FirstGeneration, Resolved, WithTurn, Opened, Recorded, Consumed, Logged, Noted,
        NewInbound, NewTurn;
      var e := d.event;
      ghost var before := db;
      if Sound(db) {
        FreshIds(db);
      }
      var begun :- OpenSession(d, issueIid);
      var (session, generation) := begun;
      ghost var stage := Opened(before, session, generation);
      OpenedFacts(before, d, issueIid, config);
      assert Resolved(before, e).None? && e.issueIid == Some(issueIid) ==> db == stage;
      var turn0 := NewTurn(0, generation, session.id, "code", config.turnMaxSteps, FirstTurn);
      NewTurnFacts(generation, session.id, "code", config.turnMaxSteps, FirstTurn);
      var scheduled :- ScheduleTurn(turn0, session, generation);
      var (turn, job) := scheduled;
      WithTurnFacts(stage, turn0, session, generation);
      ghost var staged := WithTurn(stage, turn0, session, generation);
      var event := NewInbound(0, e, true, Or(decision.reason, "start authorized"), Some(session.id),
          Some(generation.id));
      NewInboundFacts(e, true, Or(decision.reason, "start authorized"), Some(session.id), Some(generation.id));
      var inbound :- InsertInboundEvent(event);
      RecordedFacts(staged, event, turn);
      MarkEventConsumed(inbound.id, turn);
      AppendEvent(session.id, Some(generation.id), Some(turn), "lifecycle");
      var noted :- InsertOutboundAction(AckNote(session.id, generation.id),
          OutboundAction(session.id, generation.id, Some(turn)));
      return Success(IngestResult(Accepted, Some(session.id), Some(generation.id), Some(turn), Some(job),
          Some(inbound.id)));
    }

    method OpenSession(d: Delivery, issueIid: int) returns (r: Result<(IssueSession, IssueGeneration), StoreError>)
      modifies this
      ensures Resolved(old(db), d.event.(issueIid := Some(issueIid))).None? ==>
                var n := old(db).nextId;
                var s, g := FirstSession(n, d, issueIid), FirstGeneration(n, d.event, config);
                r == Success((s, g)) && db == Opened(old(db), s, g)
    {
      var e := d.event;
      var session := UpsertSession(NewSession(0, e, d.registration, issueIid));
      if session.title != e.issueTitle && e.issueTitle != "" {
        session :- SaveSession(session.(title := e.issueTitle));
      }
      var generation :- InsertGeneration(NewGeneration(0, session.id, Or(e.targetBranch, "main"),
          config.generationMaxSteps));
      session :- SaveSession(session.(active := Some(generation.id), status := QUEUED));
      return Success((session, generation));
    }

    method HandleExisting(s: IssueSession, d: Delivery, decision: Decision)
        returns (r: Result<IngestResult, StoreError>)
      modifies this
      ensures Sound(old(db)) && s.id in old(db).sessions && s == old(db).sessions[s.id] ==>
                if Clashes(old(db), d.event) then r == Failure(DuplicateDelivery)
                else s.active.Some? && s.active.value in old(db).generations && r.Success? &&
                     (db, r.value) == Handled(old(db), s, old(db).generations[s.active.value], d, decision, config)
    {
      hide Sound, Reaction, Recorded, Logged, NewInbound;
      var e := d.event;
      ghost var before := db;
      if Sound(db) {
        FreshIds(db);
        if s.id in db.sessions {
          OwnGeneration(db, s.id);
        }
      }
      var generation: Option<IssueGeneration> := None;
      if s.active.Some? {
        var found :- GetGeneration(s.active.value);
        generation := Some(found);
      }
      var generationId := if generation.Some? then Some(generation.value.id) else None;
      var event := NewInbound(0, e, decision.authorized, decision.reason, Some(s.id), generationId);
      NewInboundFacts(e, decision.authorized, decision.reason, Some(s.id), generationId);
      var inbound :- InsertInboundEvent(event);
      RecordedFacts(before, event, 0);
      AppendEvent(s.id, generationId, None, "webhook");
      r := React(s, generation, e, decision, inbound.id);
    }

    method React(s: IssueSession, generation: Option<IssueGeneration>, e: Event, decision: Decision, event: Id)
      returns (r: Result<IngestResult, StoreError>)
      modifies this
      ensures generation.Some? && Undisturbed(old(db), s, generation.value) ==>
                r.Success? && (db, r.value) == Reaction(old(db), s, generation.value, e, decision, event, config)
    {
      hide Queued, Restarted, ShouldQueue, Restarts, Noted, Merged;
      var session := s;
      var generationId := if generation.Some? then Some(generation.value.id) else None;
      var ignored := IngestResult(Ignored, Some(session.id), None, None, None, Some(event));
      var accepted := IngestResult(Accepted, Some(session.id), generationId, None, None, Some(event));
      if session.status == COMPLETED {
        return Success(ignored);
      }
      if e.command == STATUS {
        var owner := if generation.Some? then generation.value.id else session.id;
        var noted :- InsertOutboundAction(StatusNote(session.id, e.delivery), OutboundAction(session.id, owner, None));
        return Success(accepted);
      }
      if e.command == CANCEL {
        if !decision.authorized || generation.None? {
          return Success(ignored);
        }
        var saved :- SaveGeneration(generation.value.(cancelRequested := true, status := CANCELLED));
        session :- SaveSession(session.(status := CANCELLED));
        return Success(accepted);
      }
      if e.eventType == "Merge Request Hook" && e.action == "merge" {
        if generation.None? {
          return Success(ignored);
        }
        r := CompleteMerge(session, generation.value, e, accepted);
        return;
      }
      if e.eventType == "Merge Request Hook" && e.action == "close" && generation.Some? {
        var saved :- SaveGeneration(generation.value.(status := WAITING_HUMAN, waitReason := Some(MR_CLOSED)));
        session :- SaveSession(session.(status := WAITING_HUMAN));
        return Success(accepted);
      }
      if generation.None? {
        return Success(ignored);
      }
      if generation.value.id in db.activeTurns {
        return Success(accepted.(turn := Some(db.activeTurns[generation.value.id])));
      }
      if !ShouldQueue(generation.value, e, decision) {
        return Success(accepted.(verdict := if decision.authorized || e.command == None then Accepted else Ignored));
      }
      r := QueueTurn(session, generation.value, e, event);
    }

    method CompleteMerge(s: IssueSession, g: IssueGeneration, e: Event, accepted: IngestResult)
      returns (r: Result<IngestResult, StoreError>)
      modifies this
      ensures Standing(old(db), s, g) ==> db == Merged(old(db), s, g, e) && r == Success(accepted)
    {
      var generation := g.(status := COMPLETED, mergeReason := Some(MergedBecause(db, g, e)), waitReason := None,
          cancelRequested := true);
      generation :- SaveGeneration(generation);
      var session :- SaveSession(s.(status := COMPLETED));
      AppendEvent(session.id, Some(generation.id), None, "merge");
      return Success(accepted);
    }

    method QueueTurn(s: IssueSession, g: IssueGeneration, e: Event, event: Id)
        returns (r: Result<IngestResult, StoreError>)
      modifies this
      ensures ReadyToQueue(old(db), s, g) ==>
                r.Success? && (db, r.value) ==
                if Restarts(old(db), g, e) then
                  var (restarted, s', g') := Restarted(old(db), s, g, config);
                  Queued(restarted, s', g', e, event, config)
                else Queued(old(db), s, g, e, event, config)
    {
      hide Queued;
      var session, generation := s, g;
      if e.command == RUN && generation.status in {FAILED, CANCELLED} {
        if !HasVerifiedMr(db.links, generation.id) {
          generation :- InsertGeneration(
            NewGeneration(0, session.id, g.targetBranch, config.generationMaxSteps).(summary := g.summary,
              restartOf := Some(g.id)));
          session :- SaveSession(session.(active := Some(generation.id), status := QUEUED));
        }
      }
      r := Enqueue(session, generation, e, event);
    }

    method Enqueue(s: IssueSession, g: IssueGeneration, e: Event, event: Id)
        returns (r: Result<IngestResult, StoreError>)
      modifies this
      ensures ReadyToQueue(old(db), s, g) ==> r.Success? && (db, r.value) == Queued(old(db), s, g, e, event, config)
    {
      hide WithTurn, Consumed, NewTurn;
      ghost var before := db;
      var turn0 := NewTurn(0, g, s.id, KindOfTurn(g, e), config.turnMaxSteps, FollowUp(event)).(question := g.question);
      NewTurnFacts(g, s.id, KindOfTurn(g, e), config.turnMaxSteps, FollowUp(event));
      WithTurnFacts(before, turn0, s, g);
      ConsumedFacts(WithTurn(before, turn0, s, g), event, before.nextId);
      var kind := if e.command == FIX then "remediation" else "code";
      if g.waitReason == Some(CLARIFICATION) && e.command == None && e.noteBody != "" {
        kind := "clarification";
      }
      var scheduled :- ScheduleTurn(NewTurn(0, g, s.id, kind, config.turnMaxSteps,
          FollowUp(event)).(question := g.question), s, g);
      var (turn, job) := scheduled;
      MarkEventConsumed(event, turn);
      var generation :- SaveGeneration(g.(status := QUEUED, waitReason := None));
      var session :- SaveSession(s.(status := QUEUED));
      return Success(IngestResult(Accepted, Some(session.id), Some(generation.id), Some(turn), Some(job), Some(event)));
    }

    // ------------------------------------------------------------ remediation

    /** The scheduling transaction of a pipeline remediation; `false` when a turn is active already. */
    method ScheduleRemediation(sessionId: Id, generationId: Id) returns (r: Result<bool, StoreError>)
      modifies this
      ensures r.Failure? ==> db == old(db)
      ensures Sound(old(db)) && sessionId in old(db).sessions && generationId in old(db).generations ==>
                r == Success(generationId !in old(db).activeTurns) &&
                db == if generationId in old(db).activeTurns then old(db)
                      else Remediated(old(db), old(db).sessions[sessionId], old(db).generations[generationId])
    {
      hide Sound;
      var snapshot := db;
      r := Remediate(sessionId, generationId);
      if r.Failure? {
        db := snapshot;
      }
    }

    method Remediate(sessionId: Id, generationId: Id) returns (r: Result<bool, StoreError>)
      modifies this
      ensures Sound(old(db)) && sessionId in old(db).sessions && generationId in old(db).generations ==>
                r == Success(generationId !in old(db).activeTurns) &&
                db == if generationId in old(db).activeTurns then old(db)
                      else Remediated(old(db), old(db).sessions[sessionId], old(db).generations[generationId])
    {
      hide Sound, WithTurn, NewTurn;
      if Sound(db) {
        FreshIds(db);
        TablesAgree(db, sessionId, generationId);
      }
      if generationId in db.activeTurns {
        return Success(false);
      }
      var generation :- GetGeneration(generationId);
      generation :- SaveGeneration(generation.(remediationAttempts := generation.remediationAttempts + 1,
        status := QUEUED));
      var session :- GetSession(sessionId);
      session :- SaveSession(session.(status := QUEUED));
      NewTurnFacts(generation, sessionId, "remediation", REMEDIATION_MAX_STEPS, Pipeline);
      WithTurnFacts(db, NewTurn(0, generation, sessionId, "remediation", REMEDIATION_MAX_STEPS, Pipeline), session,
        generation);
      var scheduled :- ScheduleTurn(NewTurn(0, generation, sessionId, "remediation", REMEDIATION_MAX_STEPS, Pipeline),
          session, generation);
      AppendEvent(sessionId, Some(generationId), Some(scheduled.0), "remediation");
      return Success(true);
    }

    /** The transaction that gives up after the last remediation attempt and leaves the session to a human. */
    method GiveUpRemediation(sessionId: Id, generationId: Id) returns (r: Result<(), StoreError>)
      modifies this
      ensures r.Failure? ==> db == old(db)
      ensures Sound(old(db)) && sessionId in old(db).sessions && generationId in old(db).generations ==>
                r.Success? && db == GivenUp(old(db), old(db).sessions[sessionId], old(db).generations[generationId])
    {
      hide Sound;
      var snapshot := db;
      r := GiveUp(sessionId, generationId);
      if r.Failure? {
        db := snapshot;
      }
    }

    method GiveUp(sessionId: Id, generationId: Id) returns (r: Result<(), StoreError>)
      modifies this
      ensures Sound(old(db)) && sessionId in old(db).sessions && generationId in old(db).generations ==>
                r.Success? && db == GivenUp(old(db), old(db).sessions[sessionId], old(db).generations[generationId])
    {
      hide Sound;
      if Sound(db) {
        TablesAgree(db, sessionId, generationId);
      }
      var generation :- GetGeneration(generationId);
      generation :- SaveGeneration(generation.(status := WAITING_HUMAN, waitReason := Some(REMEDIATION_EXHAUSTED)));
      var session :- GetSession(sessionId);
      session :- SaveSession(session.(status := WAITING_HUMAN));
      var noted :- InsertOutboundAction(ExhaustedNote(sessionId, generationId),
          OutboundAction(sessionId, generationId, None));
      return Success(());
    }

    // ------------------------------------------------------------ operators

    /** An operator's retry; `false` when the session is completed or its generation has an active turn. */
    method RetrySession(sessionId: Id, maxSteps: nat) returns (r: Result<bool, StoreError>)
      modifies this
      ensures r.Failure? ==> db == old(db)
      ensures Sound(old(db)) && sessionId in old(db).sessions ==>
                var s := old(db).sessions[sessionId];
                && r == Success(Retriable(old(db), sessionId))
                && db == if Retriable(old(db), sessionId) then
                  Retried(old(db), s, old(db).generations[s.active.value], maxSteps)
                         else old(db)
    {
      hide Sound;
      var snapshot := db;
      r := RetryTurn(sessionId, maxSteps);
      if r.Failure? {
        db := snapshot;
      }
    }

    method RetryTurn(sessionId: Id, maxSteps: nat) returns (r: Result<bool, StoreError>)
      modifies this
      ensures Sound(old(db)) && sessionId in old(db).sessions ==>
                var s := old(db).sessions[sessionId];
                && r == Success(Retriable(old(db), sessionId))
                && db == if Retriable(old(db), sessionId) then
                  Retried(old(db), s, old(db).generations[s.active.value], maxSteps)
                         else old(db)
    {
      hide Sound, WithTurn, NewTurn;
      ghost var before := db;
      if Sound(db) {
        FreshIds(db);
        if sessionId in db.sessions {
          OwnGeneration(db, sessionId);
        }
      }
      var session :- GetSession(sessionId);
      if session.status == COMPLETED {
        return Success(false);
      }
      if session.active.None? {
        return Failure(NotFound);
      }
      var generation :- GetGeneration(session.active.value);
      if generation.id in db.activeTurns {
        return Success(false);
      }
      var turn := NewTurn(0, generation, session.id, "retry", maxSteps, Operator);
      NewTurnFacts(generation, session.id, "retry", maxSteps, Operator);
      WithTurnFacts(before, turn, session, generation);
      var scheduled :- ScheduleTurn(turn, session, generation);
      generation :- SaveGeneration(generation.(status := QUEUED, waitReason := None, cancelRequested := false));
      session :- SaveSession(session.(status := QUEUED));
      AppendEvent(session.id, Some(generation.id), Some(scheduled.0), "lifecycle");
      return Success(true);
    }

    /**
     An operator's start of an issue whose event was ignored, in a new session or in a new generation of an old one.
     */
    method StartByOperator(d: Delivery, issueIid: int) returns (r: Result<Id, StoreError>)
      modifies this
      ensures r.Failure? ==> db == old(db)
      ensures Sound(old(db)) ==> r.Success? && db == OperatorStarted(old(db), d, issueIid)
    {
      hide Sound;
      var snapshot := db;
      r := OpenByOperator(d, issueIid);
      if r.Failure? {
        db := snapshot;
      }
    }

    method OpenByOperator(d: Delivery, issueIid: int) returns (r: Result<Id, StoreError>)
      modifies this
      ensures Sound(old(db)) ==> r.Success? && db == OperatorStarted(old(db), d, issueIid)
    {
      hide Sound, WithTurn, NewTurn, Prepared;
      var prepared :- PrepareByOperator(d, issueIid);
      var (session, generation) := prepared;
      var turn := NewTurn(0, generation, session.id, "code", OPERATOR_MAX_STEPS, Operator);
      NewTurnFacts(generation, session.id, "code", OPERATOR_MAX_STEPS, Operator);
      WithTurnFacts(db, turn, session, generation);
      var scheduled :- ScheduleTurn(turn, session, generation);
      AppendEvent(session.id, Some(generation.id), Some(scheduled.0), "lifecycle");
      return Success(scheduled.0);
    }

    method PrepareByOperator(d: Delivery, issueIid: int)
        returns (r: Result<(IssueSession, IssueGeneration), StoreError>)
      modifies this
      ensures Sound(old(db)) ==>
                var (q, s, g) := Prepared(old(db), d, issueIid);
                && r == Success((s, g)) && db == q && q.events == old(db).events
                && s.id in q.sessions && g.id in q.generations && g.id !in q.activeTurns && q.nextId !in q.jobOfTurn
    {
      hide Sound;
      if Sound(db) {
        FreshIds(db);
        ResolvedStands(db, d.event.(issueIid := Some(issueIid)));
      }
      var session := UpsertSession(NewSession(0, d.event, d.registration, issueIid));
      var generation :- InsertGeneration(
        NewGeneration(0, session.id, Or(d.event.targetBranch, "main"), OPERATOR_GENERATION_STEPS));
      session :- SaveSession(session.(active := Some(generation.id), status := QUEUED));
      return Success((session, generation));
    }
  }

  /** A session and a generation as they stand in their tables. */
  predicate Standing(db: Database, s: IssueSession, g: IssueGeneration) {
    s.id in db.sessions && db.sessions[s.id] == s && g.id in db.generations && db.generations[g.id] == g
  }

  predicate Schedulable(db: Database, turn: Turn) {
    && turn.session in db.sessions && turn.generation in db.generations && turn.generation !in db.activeTurns
    && db.nextId !in db.jobOfTurn
  }

  /** A session and its generation as they stand, with the ids to come unused. */
  ghost predicate Undisturbed(db: Database, s: IssueSession, g: IssueGeneration) {
    Standing(db, s, g)
    && forall n: Id | db.nextId <= n :: n !in db.jobOfTurn && n !in db.activeTurns && n !in db.generations
  }

  ghost predicate ReadyToQueue(db: Database, s: IssueSession, g: IssueGeneration) {
    Undisturbed(db, s, g) && g.id !in db.activeTurns
  }
}
