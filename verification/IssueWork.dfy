/**
 What queues work for an issue session: follow-up turns, restarts, new sessions, remediation and operators, for any
 sound database.
 */
module IssueWork {
  import opened Wrappers
  import opened IssueModels
  import opened IssueIngestion
  import opened IssueSystem
  import opened IssueLaws

  // ---------------------------------------------------------------- work

  /** Any other event about a session whose generation has an active turn is accepted and queues nothing. */
  lemma BusyWaits(db: Database, d: Delivery, config: Config, s: Id)
    requires Arrives(db, d, s) && Proceeds(d.event) && !IsHook(d.event)
    requires db.sessions[s].active.Some? && db.sessions[s].active.value in db.activeTurns
    ensures Quiet(db, Do(db, Deliver(d), config))
    ensures var answer := Ingested(db, d, config).1;
            answer.verdict == Accepted && answer.turn == Some(db.activeTurns[db.sessions[s].active.value])
            && answer.job.None?
  {
    hide Arrives, Sound, Concerns, Clashes, Seen, Ingested, Authorize, Reaction, Quiet, Do;
    ArrivesMeans(db, d, s);
    Reacts(db, d, config, s);
    var g := db.generations[db.sessions[s].active.value];
    var seen := Seen(db, s, g.id, d.event, Authorize(d));
    SeenIs(db, s, g.id, d.event, Authorize(d));
    BusyReaction(seen, db.sessions[s], g, d.event, Authorize(d), db.nextId, config);
  }

  lemma QuietlySeen(db: Database, seen: Database, g: Id)
    requires Quiet(db, seen)
    ensures seen.activeTurns == db.activeTurns && seen.links == db.links
  {
  }

  lemma BusyReaction(db: Database, s: IssueSession, g: IssueGeneration, e: Event, decision: Decision, event: Id,
      config: Config)
    requires s.status != COMPLETED && Proceeds(e) && !IsHook(e) && g.id in db.activeTurns
    ensures var (q, answer) := Reaction(db, s, g, e, decision, event, config);
            q == db && answer.verdict == Accepted && answer.turn == Some(db.activeTurns[g.id]) && answer.job.None?
  {
    hide Queued, ShouldQueue, Restarts, Merged, IssueIngestion.Restarted, BothSaved;
  }

  /** One turn more, queued for a generation of a session, with one job that names it. */
  ghost predicate OneTurnMore(db: Database, q: Database, s: Id, g: Id, kind: string, steps: nat, origin: TurnOrigin) {
    && s in q.sessions && g in q.generations && g in q.activeTurns && q.activeTurns[g] in q.turns
    && var t := q.activeTurns[g];
    && t !in db.turns && q.turns == db.turns[t := q.turns[t]] && q.activeTurns == db.activeTurns[g := t]
    && q.turns[t].status == QueuedTurn && q.turns[t].session == s && q.turns[t].generation == g
    && q.turns[t].kind == kind && q.turns[t].maxSteps == steps && q.turns[t].origin == origin
    && q.turns[t].leaseEpoch == q.generations[g].leaseEpoch
    && q.turns[t].job.Some? && q.turns[t].job.value in q.jobs
    && var j := q.turns[t].job.value;
    && j !in db.jobs && q.jobs == db.jobs[j := q.jobs[j]]
    && q.jobs[j].turn == t && q.jobs[j].session == s && q.jobs[j].generation == g && q.jobs[j].maxSteps == steps
    && q.jobs[j].repositoryUrl == q.sessions[s].repositoryUrl
    && q.jobs[j].targetBranch == (if q.generations[g].targetBranch == "" then "main" else q.generations[g].targetBranch)
  }

  /** The event queues a turn of the active generation, which is waiting no longer; nothing else changes. */
  ghost predicate Resumes(db: Database, q: Database, s: Id, kind: string, config: Config) {
    && s in db.sessions && db.sessions[s].active.Some? && db.sessions[s].active.value in db.generations
    && var was, g := db.sessions[s], db.sessions[s].active.value;
    && OneTurnMore(db, q, s, g, kind, config.turnMaxSteps, FollowUp(db.nextId))
    && q.turns[q.activeTurns[g]].question == db.generations[g].question
    && q.sessions == db.sessions[s := was.(status := QUEUED, version := was.version + 1)]
    && q.generations == db.generations[g := db.generations[g].(status := QUEUED, waitReason := None,
         version := db.generations[g].version + 1)]
    && q.issues == db.issues && q.links == db.links && q.outbound == db.outbound
    && db.nextId in q.inbound && q.inbound[db.nextId].consumedBy == Some(q.activeTurns[g])
  }

  /** A turn that takes the next two ids, and the tables it leaves alone. */
  lemma TurnAdded(db: Database, q: Database, turn: Turn, s: IssueSession, g: IssueGeneration)
    requires Sound(db) || (db.nextId !in db.turns && db.nextId + 1 !in db.jobs)
    requires var w := WithTurn(db, turn, s, g); q.turns == w.turns && q.activeTurns == w.activeTurns && q.jobs == w.jobs
    requires s.id in q.sessions && q.sessions[s.id].repositoryUrl == s.repositoryUrl
    requires g.id in q.generations && q.generations[g.id].targetBranch == g.targetBranch
             && q.generations[g.id].leaseEpoch == g.leaseEpoch
    requires turn.session == s.id && turn.generation == g.id && turn.status == QueuedTurn
             && turn.leaseEpoch == g.leaseEpoch
    ensures OneTurnMore(db, q, s.id, g.id, turn.kind, turn.maxSteps, turn.origin)
    ensures q.activeTurns[g.id] == db.nextId && q.turns[db.nextId].question == turn.question
  {
    hide *;
    if Sound(db) {
      FreshTurn(db);
    }
    WithTurnIs(db, turn, s, g);
    JobIs(db.nextId + 1, turn.(id := db.nextId), s, g);
    OneTurnSo(db, q, turn, s, g, NewJob(db.nextId + 1, turn.(id := db.nextId), s, g));
  }

  lemma OneTurnSo(db: Database, q: Database, turn: Turn, s: IssueSession, g: IssueGeneration, job: TurnJob)
    requires db.nextId !in db.turns && db.nextId + 1 !in db.jobs
    requires var t, j := turn.(id := db.nextId), db.nextId + 1;
             && q.turns == db.turns[t.id := t.(job := Some(j), version := t.version + 1)]
             && q.activeTurns == db.activeTurns[t.generation := t.id] && q.jobs == db.jobs[j := job]
             && job.turn == t.id && job.session == s.id && job.generation == g.id && job.maxSteps == t.maxSteps
             && job.repositoryUrl == s.repositoryUrl
             && job.targetBranch == (if g.targetBranch == "" then "main" else g.targetBranch)
    requires s.id in q.sessions && q.sessions[s.id].repositoryUrl == s.repositoryUrl
    requires g.id in q.generations && q.generations[g.id].targetBranch == g.targetBranch
             && q.generations[g.id].leaseEpoch == g.leaseEpoch
    requires turn.session == s.id && turn.generation == g.id && turn.status == QueuedTurn
             && turn.leaseEpoch == g.leaseEpoch
    ensures OneTurnMore(db, q, s.id, g.id, turn.kind, turn.maxSteps, turn.origin)
    ensures q.activeTurns[g.id] == db.nextId && q.turns[db.nextId].question == turn.question
  {
  }

  lemma WithTurnIs(db: Database, turn: Turn, s: IssueSession, g: IssueGeneration)
    ensures var q, t, j := WithTurn(db, turn, s, g), turn.(id := db.nextId), db.nextId + 1;
            && q.turns == db.turns[t.id := t.(job := Some(j), version := t.version + 1)]
            && q.activeTurns == db.activeTurns[t.generation := t.id] && q.jobs == db.jobs[j := NewJob(j, t, s, g)]
  {
    hide NewJob;
  }

  lemma JobIs(j: Id, t: Turn, s: IssueSession, g: IssueGeneration)
    ensures var job := NewJob(j, t, s, g);
            && job.turn == t.id && job.session == s.id && job.generation == g.id && job.maxSteps == t.maxSteps
            && job.repositoryUrl == s.repositoryUrl
            && job.targetBranch == (if g.targetBranch == "" then "main" else g.targetBranch)
  {
  }

  lemma QueuedIs(db: Database, s: IssueSession, g: IssueGeneration, e: Event, event: Id, config: Config)
    ensures var q := Queued(db, s, g, e, event, config).0;
            var w := WithTurn(db, FollowUpTurn(s, g, e, event, config), s, g);
            && q.turns == w.turns && q.activeTurns == w.activeTurns && q.jobs == w.jobs
            && q.sessions == db.sessions[s.id := s.(status := QUEUED, version := s.version + 1)]
            && q.generations == db.generations[g.id := g.(status := QUEUED, waitReason := None,
                 version := g.version + 1)]
            && q.issues == db.issues && q.links == db.links && q.outbound == db.outbound
            && (event in db.inbound ==> event in q.inbound && q.inbound[event].consumedBy == Some(db.nextId))
  {
    hide *;
    var w := WithTurn(db, FollowUpTurn(s, g, e, event, config), s, g);
    WithTurnFrame(db, FollowUpTurn(s, g, e, event, config), s, g);
    QueuedUnfolds(db, s, g, e, event, config);
    ConsumedIs(w, event, db.nextId);
    BothSavedIs(Consumed(w, event, db.nextId), s.(status := QUEUED), g.(status := QUEUED, waitReason := None));
  }

  lemma QueuedUnfolds(db: Database, s: IssueSession, g: IssueGeneration, e: Event, event: Id, config: Config)
    ensures var w := WithTurn(db, FollowUpTurn(s, g, e, event, config), s, g);
            Queued(db, s, g, e, event, config).0 ==
            BothSaved(Consumed(w, event, db.nextId), s.(status := QUEUED), g.(status := QUEUED, waitReason := None))
  {
    hide WithTurn, FollowUpTurn, Consumed, BothSaved;
  }

  lemma ConsumedIs(db: Database, event: Id, turn: Id)
    ensures var q := Consumed(db, event, turn);
            && q == db.(inbound := q.inbound)
            && (event in db.inbound ==>
                  && event in q.inbound && q.inbound[event].consumedBy == Some(turn)
                  && q.inbound[event].delivery == db.inbound[event].delivery)
  {
  }

  lemma BothSavedIs(db: Database, s: IssueSession, g: IssueGeneration)
    ensures BothSaved(db, s, g) == db.(sessions := db.sessions[s.id := s.(version := s.version + 1)],
                                       generations := db.generations[g.id := g.(version := g.version + 1)])
  {
  }

  lemma FollowUpIs(s: IssueSession, g: IssueGeneration, e: Event, event: Id, config: Config)
    ensures var turn := FollowUpTurn(s, g, e, event, config);
            && turn.session == s.id && turn.generation == g.id && turn.status == QueuedTurn
            && turn.leaseEpoch == g.leaseEpoch && turn.kind == KindOfTurn(g, e) && turn.maxSteps == config.turnMaxSteps
            && turn.origin == FollowUp(event) && turn.question == g.question
  {
  }

  lemma FreshTurn(db: Database)
    requires Sound(db)
    ensures forall n: Id | db.nextId <= n :: n !in db.turns && n !in db.jobs && n !in db.generations
  {
    FreshIds(db);
  }

  lemma QueuedResumes(db: Database, d: Delivery, config: Config, s: Id)
    requires Sound(db) && s in db.sessions && db.sessions[s].active.Some?
    requires db.sessions[s].active.value in db.generations && db.sessions[s].id == s
    requires db.generations[db.sessions[s].active.value].id == db.sessions[s].active.value
    ensures var g := db.generations[db.sessions[s].active.value];
            var seen := Seen(db, s, g.id, d.event, Authorize(d));
            Resumes(db, Queued(seen, db.sessions[s], g, d.event, db.nextId, config).0, s, KindOfTurn(g, d.event),
              config)
  {
    hide *;
    var was, g := db.sessions[s], db.generations[db.sessions[s].active.value];
    var seen := Seen(db, s, g.id, d.event, Authorize(d));
    var turn := FollowUpTurn(was, g, d.event, db.nextId, config);
    var q := Queued(seen, was, g, d.event, db.nextId, config).0;
    FreshTurn(db);
    SeenIs(db, s, g.id, d.event, Authorize(d));
    QueuedIs(seen, was, g, d.event, db.nextId, config);
    FollowUpIs(was, g, d.event, db.nextId, config);
    TurnAdded(seen, q, turn, was, g);
    SameBefore(db, seen, q, s, g.id, turn.kind, turn.maxSteps, turn.origin);
    ResumesSo(db, q, s, turn.kind, config);
  }

  lemma SeenIs(db: Database, s: Id, g: Id, e: Event, decision: Decision)
    ensures var seen := Seen(db, s, g, e, decision);
            && seen == db.(nextId := db.nextId + 1, inbound := seen.inbound, deliveries := seen.deliveries,
                 actions := seen.actions, events := seen.events)
            && db.nextId in seen.inbound
  {
    hide Logged;
  }

  lemma ResumesSo(db: Database, q: Database, s: Id, kind: string, config: Config)
    requires s in db.sessions && db.sessions[s].active.Some? && db.sessions[s].active.value in db.generations
    requires var g := db.sessions[s].active.value;
             && OneTurnMore(db, q, s, g, kind, config.turnMaxSteps, FollowUp(db.nextId))
             && q.activeTurns[g] == db.nextId + 1 && q.turns[db.nextId + 1].question == db.generations[g].question
             && q.sessions == db.sessions[s := db.sessions[s].(status := QUEUED, version := db.sessions[s].version + 1)]
             && q.generations == db.generations[g := db.generations[g].(status := QUEUED, waitReason := None,
                  version := db.generations[g].version + 1)]
    requires q.issues == db.issues && q.links == db.links && q.outbound == db.outbound
    requires db.nextId in q.inbound && q.inbound[db.nextId].consumedBy == Some(db.nextId + 1)
    ensures Resumes(db, q, s, kind, config)
  {
    hide OneTurnMore;
  }

  lemma SameBefore(db: Database, seen: Database, q: Database, s: Id, g: Id, kind: string, steps: nat,
      origin: TurnOrigin)
    requires OneTurnMore(seen, q, s, g, kind, steps, origin)
    requires seen.turns == db.turns && seen.activeTurns == db.activeTurns && seen.jobs == db.jobs
    ensures OneTurnMore(db, q, s, g, kind, steps, origin)
  {
  }

  /** What is left to decide for an event that may queue a turn. */
  lemma WorkReaction(db: Database, s: IssueSession, g: IssueGeneration, e: Event, decision: Decision, event: Id,
      config: Config)
    requires s.status != COMPLETED && Proceeds(e) && !IsHook(e) && g.id !in db.activeTurns
    ensures var (q, answer) := Reaction(db, s, g, e, decision, event, config);
            if !ShouldQueue(g, e, decision) then
              q == db && answer.verdict == if decision.authorized || e.command == None then Accepted else Ignored
            else
              && answer.verdict == Accepted
              && if Restarts(db, g, e) then
                   var (restarted, s', g') := IssueIngestion.Restarted(db, s, g, config);
                   q == Queued(restarted, s', g', e, event, config).0
                 else q == Queued(db, s, g, e, event, config).0
  {
    hide ShouldQueue, Restarts, BothSaved, IssueIngestion.Restarted, Merged, WithTurn, FollowUpTurn, Consumed;
  }

  /** `/agent fix` queues a remediation turn exactly for a generation that awaits its merge. */
  lemma FixRemediates(db: Database, d: Delivery, config: Config, s: Id)
    requires Arrives(db, d, s) && d.event.command == Some("/agent fix") && !IsHook(d.event)
    requires db.sessions[s].active.Some? && db.sessions[s].active.value !in db.activeTurns
    ensures var q, g := Do(db, Deliver(d), config), db.sessions[s].active.value;
            if MayAct(d) && g in db.generations && db.generations[g].status == AWAITING_MERGE
            then Resumes(db, q, s, "remediation", config) && Ingested(db, d, config).1.verdict == Accepted
            else Quiet(db, q) && Ingested(db, d, config).1.verdict == if MayAct(d) then Accepted else Ignored
  {
    hide Arrives, Sound, Concerns, Clashes, Seen, Ingested, Authorize, MayAct, Resumes, Queued, Reaction, Quiet,
      IssueIngestion.Restarted, Restarted, Published, HasVerifiedMr, Do;
    ArrivesMeans(db, d, s);
    Reacts(db, d, config, s);
    AuthorizedIs(d);
    var g := db.generations[db.sessions[s].active.value];
    var seen := Seen(db, s, g.id, d.event, Authorize(d));
    SeenIs(db, s, g.id, d.event, Authorize(d));
    QuietlySeen(db, seen, g.id);
    QueuedResumes(db, d, config, s);
    WorkReaction(seen, db.sessions[s], g, d.event, Authorize(d), db.nextId, config);
  }

  /** A note without a command answers a question, or wakes a session that waits for a human; nothing else queues. */
  lemma NoteResumes(db: Database, d: Delivery, config: Config, s: Id)
    requires Arrives(db, d, s) && Proceeds(d.event) && !IsHook(d.event)
    requires d.event.command != Some("/agent fix") && d.event.command != Some("/agent run")
    requires db.sessions[s].active.Some? && db.sessions[s].active.value !in db.activeTurns
    ensures db.sessions[s].active.value in db.generations
    ensures var q, g := Do(db, Deliver(d), config), db.generations[db.sessions[s].active.value];
            var answers := g.waitReason == Some(CLARIFICATION) && d.event.command == None;
            if && MayAct(d) && g.status == WAITING_HUMAN && d.event.noteBody != ""
               && (answers || g.waitReason in {Some(NO_SAFE_CHANGE), Some(REMEDIATION_EXHAUSTED), Some(MR_CLOSED)})
            then Resumes(db, q, s, if answers then "clarification" else "code", config)
            else Quiet(db, q)
  {
    hide Arrives, Sound, Concerns, Clashes, Seen, Ingested, Authorize, MayAct, Resumes, Queued, Reaction, Quiet,
      IssueIngestion.Restarted, Restarted, Published, HasVerifiedMr, Do;
    ArrivesMeans(db, d, s);
    Reacts(db, d, config, s);
    AuthorizedIs(d);
    var g := db.generations[db.sessions[s].active.value];
    var seen := Seen(db, s, g.id, d.event, Authorize(d));
    SeenIs(db, s, g.id, d.event, Authorize(d));
    QuietlySeen(db, seen, g.id);
    QueuedResumes(db, d, config, s);
    WorkReaction(seen, db.sessions[s], g, d.event, Authorize(d), db.nextId, config);
  }

  ghost predicate Published(db: Database, g: Id) {
    exists k :: FirstOf(db.links, g, k) && db.links[k].mrIid.Some?
  }

  lemma PublishedIs(db: Database, seen: Database, g: Id)
    requires seen.links == db.links
    ensures HasVerifiedMr(seen.links, g) == Published(db, g)
  {
    FirstLink(db.links, g);
    if k :| FirstOf(db.links, g, k) {
      assert LinkOfGeneration(db.links, g) == Some(db.links[k]);
    }
    hide LinkOfGeneration;
  }

  /** A new generation takes over from the active one, with its summary and branch, and gets the turn. */
  ghost predicate Restarted(db: Database, q: Database, s: Id, config: Config) {
    && s in db.sessions && db.sessions[s].active.Some? && db.sessions[s].active.value in db.generations
    && s in q.sessions && q.sessions[s].active.Some? && q.sessions[s].active.value in q.generations
    && var was, g := db.generations[db.sessions[s].active.value], q.sessions[s].active.value;
    && g !in db.generations
    && OneTurnMore(db, q, s, g, "code", config.turnMaxSteps, FollowUp(db.nextId))
    && q.sessions == db.sessions[s := db.sessions[s].(status := QUEUED, active := Some(g),
         version := q.sessions[s].version)]
    && q.sessions[s].version > db.sessions[s].version
    && q.generations == db.generations[g := IssueGeneration(g, s, QUEUED, None, was.targetBranch,
         config.generationMaxSteps, 0, None, was.summary, None, 0, false, Some(was.id), q.generations[g].version)]
    && q.issues == db.issues && q.links == db.links && q.outbound == db.outbound
    && db.nextId in q.inbound && q.inbound[db.nextId].consumedBy == Some(q.activeTurns[g])
  }

  lemma RestartRestarts(db: Database, d: Delivery, config: Config, s: Id)
    requires Sound(db) && s in db.sessions && db.sessions[s].active.Some? && d.event.command == RUN
    requires db.sessions[s].active.value in db.generations && db.sessions[s].id == s
    requires db.generations[db.sessions[s].active.value].id == db.sessions[s].active.value
    ensures var g := db.generations[db.sessions[s].active.value];
            var seen := Seen(db, s, g.id, d.event, Authorize(d));
            var (restarted, s', g') := IssueIngestion.Restarted(seen, db.sessions[s], g, config);
            Restarted(db, Queued(restarted, s', g', d.event, db.nextId, config).0, s, config)
  {
    hide *;
    var was, g := db.sessions[s], db.generations[db.sessions[s].active.value];
    var seen := Seen(db, s, g.id, d.event, Authorize(d));
    var (r, s', g') := IssueIngestion.Restarted(seen, was, g, config);
    var turn := FollowUpTurn(s', g', d.event, db.nextId, config);
    var q := Queued(r, s', g', d.event, db.nextId, config).0;
    FreshTurn(db);
    SeenIs(db, s, g.id, d.event, Authorize(d));
    RestartedIs(seen, was, g, config);
    QueuedIs(r, s', g', d.event, db.nextId, config);
    FollowUpIs(s', g', d.event, db.nextId, config);
    RunIsCode(g', d.event);
    TurnAdded(r, q, turn, s', g');
    SameBefore(db, r, q, s, g'.id, turn.kind, turn.maxSteps, turn.origin);
    RestartsSo(db, q, s, g, g', config);
  }

  lemma RunIsCode(g: IssueGeneration, e: Event)
    requires e.command == RUN
    ensures KindOfTurn(g, e) == "code"
  {
  }

  lemma RestartedIs(db: Database, s: IssueSession, g: IssueGeneration, config: Config)
    ensures var (q, s', g') := IssueIngestion.Restarted(db, s, g, config);
            var n := db.nextId;
            && s' == s.(active := Some(n), status := QUEUED, version := s.version + 1)
            && g' == IssueGeneration(n, s.id, QUEUED, None, g.targetBranch, config.generationMaxSteps, 0, None,
                       g.summary, None, 0, false, Some(g.id), 0)
            && q == db.(nextId := n + 1, sessions := db.sessions[s.id := s'], generations := db.generations[n := g'])
  {
  }

  lemma RestartsSo(db: Database, q: Database, s: Id, was: IssueGeneration, g: IssueGeneration, config: Config)
    requires s in db.sessions && db.sessions[s].active == Some(was.id) && was.id in db.generations
    requires db.generations[was.id] == was && g.id !in db.generations
    requires g == IssueGeneration(g.id, s, QUEUED, None, was.targetBranch, config.generationMaxSteps, 0, None,
                    was.summary, None, 0, false, Some(was.id), 0)
    requires OneTurnMore(db, q, s, g.id, "code", config.turnMaxSteps, FollowUp(db.nextId))
    requires var s' := db.sessions[s].(active := Some(g.id), status := QUEUED, version := db.sessions[s].version + 1);
             q.sessions == db.sessions[s := s'][s := s'.(status := QUEUED, version := s'.version + 1)]
    requires q.generations == db.generations[g.id := g][g.id := g.(status := QUEUED, waitReason := None,
               version := g.version + 1)]
    requires q.issues == db.issues && q.links == db.links && q.outbound == db.outbound
    requires db.nextId in q.inbound && q.inbound[db.nextId].consumedBy == Some(q.activeTurns[g.id])
    ensures Restarted(db, q, s, config)
  {
    hide OneTurnMore;
  }

  /**
   `/agent run` queues a turn unless the generation awaits its merge or an answer; one that has failed or was cancelled
   without a merge request gives way to a new generation.
   */
  lemma RunQueues(db: Database, d: Delivery, config: Config, s: Id)
    requires Arrives(db, d, s) && d.event.command == Some("/agent run") && !IsHook(d.event)
    requires db.sessions[s].active.Some? && db.sessions[s].active.value !in db.activeTurns
    ensures db.sessions[s].active.value in db.generations
    ensures var q, g := Do(db, Deliver(d), config), db.generations[db.sessions[s].active.value];
            if !MayAct(d) || g.status == AWAITING_MERGE || g.waitReason == Some(CLARIFICATION) then
              Quiet(db, q) && Ingested(db, d, config).1.verdict == if MayAct(d) then Accepted else Ignored
            else
              && Ingested(db, d, config).1.verdict == Accepted
              && if g.status in {FAILED, CANCELLED} && !Published(db, g.id) then Restarted(db, q, s, config)
                 else Resumes(db, q, s, "code", config)
  {
    hide Arrives, Sound, Concerns, Clashes, Seen, Ingested, Authorize, MayAct, Resumes, Queued, Reaction, Quiet,
      IssueIngestion.Restarted, Restarted, Published, HasVerifiedMr, Do;
    ArrivesMeans(db, d, s);
    Reacts(db, d, config, s);
    AuthorizedIs(d);
    var g := db.generations[db.sessions[s].active.value];
    var seen := Seen(db, s, g.id, d.event, Authorize(d));
    SeenIs(db, s, g.id, d.event, Authorize(d));
    QuietlySeen(db, seen, g.id);
    QueuedResumes(db, d, config, s);
    RestartRestarts(db, d, config, s);
    PublishedIs(db, seen, g.id);
    WorkReaction(seen, db.sessions[s], g, d.event, Authorize(d), db.nextId, config);
  }

  // ---------------------------------------------------------------- new sessions

  /** The session and the generation that an event opens. */
  predicate Opening(s: IssueSession, g: IssueGeneration, n: Id, d: Delivery, config: Config) {
    var e, r := d.event, d.registration;
    && e.issueIid.Some?
    && s.id == n && s.key == IssueKey(e.instance, e.project, e.issueIid.value) && s.status == QUEUED
    && s.title == e.issueTitle && s.registration == r.id && s.triggerLabel == r.triggerLabel
    && s.repositoryUrl ==
       (if e.repositoryUrl != "" then e.repositoryUrl else if r.repositoryUrl != "" then r.repositoryUrl
        else r.instance + "/" + r.projectPath + ".git")
    && s.active == Some(n + 1) && g.id == n + 1 && g.session == n && g.status == QUEUED && g.waitReason == None
    && g.targetBranch == (if e.targetBranch == "" then "main" else e.targetBranch)
    && g.maxSteps == config.generationMaxSteps && !g.cancelRequested
  }

  /** One session more for the issue of the event, with one generation and its first turn. */
  ghost predicate Opens(db: Database, q: Database, d: Delivery, config: Config) {
    && d.event.issueIid.Some?
    && var key := IssueKey(d.event.instance, d.event.project, d.event.issueIid.value);
    && key in q.issues && q.issues == db.issues[key := q.issues[key]]
    && var s, g := q.issues[key], q.issues[key] + 1;
    && s !in db.sessions && s in q.sessions && q.sessions == db.sessions[s := q.sessions[s]]
    && g !in db.generations && g in q.generations && q.generations == db.generations[g := q.generations[g]]
    && Opening(q.sessions[s], q.generations[g], s, d, config)
    && OneTurnMore(db, q, s, g, "code", config.turnMaxSteps, FirstTurn)
    && q.links == db.links && AckNote(s, g) in q.outbound
    && exists event ::
         event in q.inbound && event !in db.inbound && q.inbound[event].delivery == d.event.delivery
         && q.inbound[event].consumedBy == Some(q.activeTurns[g])
  }

  /** A label or `/agent run` opens a session for an issue that has none, if the actor may act; nothing else does. */
  lemma StartOpens(db: Database, d: Delivery, config: Config)
    requires Sound(db) && !Clashes(db, d.event) && d.event.relevant && forall s :: !Concerns(db, d.event, s)
    ensures var q := Do(db, Deliver(d), config);
            if && (d.event.labelAdded || d.event.command == Some("/agent run")) && MayAct(d)
               && d.event.issueIid.Some?
            then Opens(db, q, d, config) && Ingested(db, d, config).1.verdict == Accepted
            else Quiet(db, q) && Ingested(db, d, config).1.verdict == Ignored
  {
    hide *;
    var e := d.event;
    NobodyConcerned(db, e);
    AuthorizedIs(d);
    UnopenedCases(db, d, config);
    if IsStart(e) && Authorize(d).authorized && e.issueIid.Some? {
      StartedOpens(db, d, Authorize(d), config, e.issueIid.value);
    } else {
      var authorized, reason :| Ingested(db, d, config) == OnlyRecorded(db, e, authorized, reason);
      RecordedQuiet(db, e, authorized, reason);
    }
  }

  lemma UnopenedCases(db: Database, d: Delivery, config: Config)
    requires !Clashes(db, d.event) && d.event.relevant && Resolved(db, d.event).None?
    ensures Do(db, Deliver(d), config) == Ingested(db, d, config).0
    ensures IsStart(d.event) == (d.event.labelAdded || d.event.command == Some("/agent run"))
    ensures if IsStart(d.event) && Authorize(d).authorized && d.event.issueIid.Some? then
              Ingested(db, d, config) == Started(db, d, Authorize(d), config, d.event.issueIid.value)
            else exists authorized, reason :: Ingested(db, d, config) == OnlyRecorded(db, d.event, authorized, reason)
  {
    AuthorizedIs(d);
    hide Clashes, OnlyRecorded, Resolved, Started, Handled, Authorize;
  }

  lemma StartedOpens(db: Database, d: Delivery, decision: Decision, config: Config, issueIid: int)
    requires Sound(db) && d.event.issueIid == Some(issueIid)
    ensures Opens(db, Started(db, d, decision, config, issueIid).0, d, config)
    ensures Started(db, d, decision, config, issueIid).1.verdict == Accepted
  {
    hide *;
    var n := db.nextId;
    var s, g := FirstSession(n, d, issueIid), FirstGeneration(n, d.event, config);
    var stage, turn := Opened(db, s, g), NewTurn(0, g, n, "code", config.turnMaxSteps, FirstTurn);
    var q := Started(db, d, decision, config, issueIid).0;
    FreshOpening(db);
    OpenedIs(db, d, issueIid, config);
    FirstTurnIs(g, n, config);
    StartedUnfolds(db, d, decision, config, issueIid);
    TurnAdded(stage, q, turn, s, g);
    SameBefore(db, stage, q, n, n + 1, turn.kind, turn.maxSteps, turn.origin);
    OpensSo(db, q, d, config, s, g);
  }

  lemma FreshOpening(db: Database)
    requires Sound(db)
    ensures forall n: Id | db.nextId <= n ::
              n !in db.sessions && n !in db.generations && n !in db.turns && n !in db.jobs && n !in db.inbound
  {
    FreshIds(db);
  }

  lemma FirstTurnIs(g: IssueGeneration, s: Id, config: Config)
    ensures var turn := NewTurn(0, g, s, "code", config.turnMaxSteps, FirstTurn);
            && turn.session == s && turn.generation == g.id && turn.status == QueuedTurn && turn.kind == "code"
            && turn.leaseEpoch == g.leaseEpoch && turn.maxSteps == config.turnMaxSteps && turn.origin == FirstTurn
  {
  }

  lemma OpenedIs(db: Database, d: Delivery, issueIid: int, config: Config)
    requires d.event.issueIid == Some(issueIid)
    ensures var n := db.nextId;
            var s, g := FirstSession(n, d, issueIid), FirstGeneration(n, d.event, config);
            && Opening(s, g, n, d, config)
            && Opened(db, s, g) ==
               db.(nextId := n + 2, sessions := db.sessions[n := s], issues := db.issues[s.key := n],
                 generations := db.generations[n + 1 := g])
  {
  }

  lemma StartedUnfolds(db: Database, d: Delivery, decision: Decision, config: Config, issueIid: int)
    ensures var n := db.nextId;
            var s, g := FirstSession(n, d, issueIid), FirstGeneration(n, d.event, config);
            var stage := Opened(db, s, g);
            var w := WithTurn(stage, NewTurn(0, g, n, "code", config.turnMaxSteps, FirstTurn), s, g);
            var (q, answer) := Started(db, d, decision, config, issueIid);
            && answer.verdict == Accepted
            && q.turns == w.turns && q.activeTurns == w.activeTurns && q.jobs == w.jobs
            && q.sessions == stage.sessions && q.issues == stage.issues && q.generations == stage.generations
            && q.links == db.links && AckNote(n, n + 1) in q.outbound
            && n + 4 in q.inbound && q.inbound[n + 4].delivery == d.event.delivery
            && q.inbound[n + 4].consumedBy == Some(n + 2)
  {
    hide *;
    var n, e := db.nextId, d.event;
    var s, g := FirstSession(n, d, issueIid), FirstGeneration(n, e, config);
    var stage, turn := Opened(db, s, g), NewTurn(0, g, n, "code", config.turnMaxSteps, FirstTurn);
    var w := WithTurn(stage, turn, s, g);
    var event := NewInbound(0, e, true, Or(decision.reason, "start authorized"), Some(n), Some(n + 1));
    OpenedFacts(db, d, issueIid, config);
    WithTurnFrame(stage, turn, s, g);
    NewInboundFacts(e, true, Or(decision.reason, "start authorized"), Some(n), Some(n + 1));
    RecordedIs(w, event);
    ConsumedIs(Recorded(w, event), n + 4, n + 2);
    StartedIs(db, d, decision, config, issueIid);
  }

  lemma RecordedIs(db: Database, event: InboundEvent)
    ensures var q := Recorded(db, event);
            && q == db.(nextId := q.nextId, inbound := q.inbound, deliveries := q.deliveries, actions := q.actions)
            && db.nextId in q.inbound && q.inbound[db.nextId].delivery == event.delivery
  {
  }

  lemma StartedIs(db: Database, d: Delivery, decision: Decision, config: Config, issueIid: int)
    ensures var n, e := db.nextId, d.event;
            var s, g := FirstSession(n, d, issueIid), FirstGeneration(n, e, config);
            var w := WithTurn(Opened(db, s, g), NewTurn(0, g, n, "code", config.turnMaxSteps, FirstTurn), s, g);
            var event := NewInbound(0, e, true, Or(decision.reason, "start authorized"), Some(n), Some(n + 1));
            var (q, answer) := Started(db, d, decision, config, issueIid);
            && answer.verdict == Accepted && AckNote(n, n + 1) in q.outbound
            && q == Consumed(Recorded(w, event), n + 4, n + 2).(events := q.events, outbound := q.outbound)
  {
    hide WithTurn, Opened, NewTurn, FirstSession, FirstGeneration, NewInbound, Recorded, Consumed, Logged, Or;
  }

  lemma OpensSo(db: Database, q: Database, d: Delivery, config: Config, s: IssueSession, g: IssueGeneration)
    requires Opening(s, g, s.id, d, config) && s.id !in db.sessions && g.id !in db.generations
    requires q.sessions == db.sessions[s.id := s] && q.issues == db.issues[s.key := s.id]
    requires q.generations == db.generations[g.id := g] && q.links == db.links && AckNote(s.id, g.id) in q.outbound
    requires OneTurnMore(db, q, s.id, g.id, "code", config.turnMaxSteps, FirstTurn)
    requires s.id + 4 in q.inbound && s.id + 4 !in db.inbound && q.inbound[s.id + 4].delivery == d.event.delivery
    requires q.inbound[s.id + 4].consumedBy == Some(q.activeTurns[g.id])
    ensures Opens(db, q, d, config)
  {
    hide OneTurnMore;
  }

  // ---------------------------------------------------------------- remediation and operators

  /** The two rows are saved as given; everything that does not belong to a turn is as before. */
  predicate Become(db: Database, q: Database, s: IssueSession, g: IssueGeneration) {
    && q.sessions == db.sessions[s.id := s] && q.generations == db.generations[g.id := g]
    && q.issues == db.issues && q.links == db.links && q.inbound == db.inbound
  }

  /** A remediation queues one turn of 25 steps and counts an attempt, unless a turn is active. */
  lemma RemediationQueues(db: Database, s: Id, g: Id, config: Config)
    requires Sound(db) && s in db.sessions && g in db.generations
    ensures var q, was, before := Do(db, Remediate(s, g), config), db.sessions[s], db.generations[g];
            if g in db.activeTurns then q == db
            else
              && OneTurnMore(db, q, s, g, "remediation", 25, Pipeline) && q.outbound == db.outbound
              && Become(db, q, was.(status := QUEUED, version := was.version + 1),
                   before.(status := QUEUED, remediationAttempts := before.remediationAttempts + 1,
                     version := before.version + 1))
  {
    hide *;
    TablesAgree(db, s, g);
    FreshTurn(db);
    DoRemediates(db, s, g, config);
    if g !in db.activeTurns {
      var was, before := db.sessions[s], db.generations[g];
      AfterRemediation(db, Do(db, Remediate(s, g), config), was.(status := QUEUED, version := was.version + 1),
        before.(status := QUEUED, remediationAttempts := before.remediationAttempts + 1,
          version := before.version + 1));
    }
  }

  lemma AfterRemediation(db: Database, q: Database, s: IssueSession, g: IssueGeneration)
    requires forall n: Id | db.nextId <= n :: n !in db.turns && n !in db.jobs
    requires var saved := db.(sessions := db.sessions[s.id := s], generations := db.generations[g.id := g]);
             q == WithTurn(saved, RemediationTurn(s, g), s, g).(events := q.events)
    ensures OneTurnMore(db, q, s.id, g.id, "remediation", 25, Pipeline) && q.outbound == db.outbound
    ensures Become(db, q, s, g)
  {
    hide Sound, WithTurn, RemediationTurn, OneTurnMore;
    var saved := db.(sessions := db.sessions[s.id := s], generations := db.generations[g.id := g]);
    var turn := RemediationTurn(s, g);
    RemediationIs(s, g);
    WithTurnFrame(saved, turn, s, g);
    TurnAdded(saved, q, turn, s, g);
    SameBefore(db, saved, q, s.id, g.id, "remediation", 25, Pipeline);
  }

  lemma DoRemediates(db: Database, s: Id, g: Id, config: Config)
    requires s in db.sessions && db.sessions[s].id == s
    requires g in db.generations && db.generations[g].id == g
    ensures var q, was, before := Do(db, Remediate(s, g), config), db.sessions[s], db.generations[g];
            if g in db.activeTurns then q == db
            else
              var s', g' := was.(status := QUEUED, version := was.version + 1),
                before.(status := QUEUED, remediationAttempts := before.remediationAttempts + 1,
                  version := before.version + 1);
              var saved := db.(sessions := db.sessions[s := s'], generations := db.generations[g := g']);
              q == WithTurn(saved, RemediationTurn(s', g'), s', g').(events := q.events)
  {
    hide WithTurn, RemediationTurn, Logged;
  }

  lemma RemediationIs(s: IssueSession, g: IssueGeneration)
    ensures var turn := RemediationTurn(s, g);
            && turn.session == s.id && turn.generation == g.id && turn.status == QueuedTurn
            && turn.leaseEpoch == g.leaseEpoch && turn.kind == "remediation" && turn.maxSteps == 25
            && turn.origin == Pipeline
  {
  }

  /** Giving up leaves session and generation to a human and says so once. */
  lemma GivingUpWaits(db: Database, s: Id, g: Id, config: Config)
    requires Sound(db) && s in db.sessions && g in db.generations
    ensures var q, was, before := Do(db, GiveUp(s, g), config), db.sessions[s], db.generations[g];
            && Become(db, q, was.(status := WAITING_HUMAN, version := was.version + 1),
                 before.(status := WAITING_HUMAN, waitReason := Some(REMEDIATION_EXHAUSTED),
                   version := before.version + 1))
            && q.turns == db.turns && q.activeTurns == db.activeTurns && q.jobs == db.jobs
            && ExhaustedNote(s, g) in q.outbound && q.outbound.Keys == db.outbound.Keys + {ExhaustedNote(s, g)}
  {
    hide *;
    TablesAgree(db, s, g);
    DoGivesUp(db, s, g, config);
  }

  lemma DoGivesUp(db: Database, s: Id, g: Id, config: Config)
    requires s in db.sessions && db.sessions[s].id == s && g in db.generations && db.generations[g].id == g
    ensures var q, was, before := Do(db, GiveUp(s, g), config), db.sessions[s], db.generations[g];
            && Become(db, q, was.(status := WAITING_HUMAN, version := was.version + 1),
                 before.(status := WAITING_HUMAN, waitReason := Some(REMEDIATION_EXHAUSTED),
                   version := before.version + 1))
            && q.turns == db.turns && q.activeTurns == db.activeTurns && q.jobs == db.jobs
            && ExhaustedNote(s, g) in q.outbound && q.outbound.Keys == db.outbound.Keys + {ExhaustedNote(s, g)}
  {
    hide *;
    var s', g' := db.sessions[s].(status := WAITING_HUMAN),
      db.generations[g].(status := WAITING_HUMAN, waitReason := Some(REMEDIATION_EXHAUSTED));
    DoGivenUp(db, s, g, config);
    BothSavedIs(db, s', g');
    NotedIs(BothSaved(db, s', g'), ExhaustedNote(s, g), OutboundAction(s, g, None));
    BecomeSo(db, Do(db, GiveUp(s, g), config), s'.(version := s'.version + 1), g'.(version := g'.version + 1));
  }

  lemma DoGivenUp(db: Database, s: Id, g: Id, config: Config)
    requires s in db.sessions && db.sessions[s].id == s && g in db.generations && db.generations[g].id == g
    ensures Do(db, GiveUp(s, g), config) ==
            Noted(BothSaved(db, db.sessions[s].(status := WAITING_HUMAN),
                    db.generations[g].(status := WAITING_HUMAN, waitReason := Some(REMEDIATION_EXHAUSTED))),
                  ExhaustedNote(s, g), OutboundAction(s, g, None))
  {
    hide Noted, BothSaved;
  }

  lemma NotedIs(db: Database, key: EffectKey, action: OutboundAction)
    ensures var q := Noted(db, key, action);
            q == db.(outbound := q.outbound) && key in q.outbound && q.outbound.Keys == db.outbound.Keys + {key}
  {
  }

  lemma BecomeSo(db: Database, q: Database, s: IssueSession, g: IssueGeneration)
    requires q.sessions == db.sessions[s.id := s] && q.generations == db.generations[g.id := g]
    requires q.issues == db.issues && q.links == db.links && q.inbound == db.inbound
    ensures Become(db, q, s, g)
  {
  }

  /** An operator's retry queues one turn of an idle generation and clears what it waited for. */
  lemma RetryQueues(db: Database, s: Id, maxSteps: nat, config: Config)
    requires Sound(db) && s in db.sessions && db.sessions[s].active.Some?
    ensures db.sessions[s].active.value in db.generations
    ensures var q, g := Do(db, Retry(s, maxSteps), config), db.sessions[s].active.value;
            if db.sessions[s].status == COMPLETED || g in db.activeTurns then q == db
            else
              && OneTurnMore(db, q, s, g, "retry", maxSteps, Operator)
              && Become(db, q, db.sessions[s].(status := QUEUED, version := db.sessions[s].version + 1),
                   db.generations[g].(status := QUEUED, waitReason := None, cancelRequested := false,
                     version := db.generations[g].version + 1))
              && q.outbound == db.outbound
  {
    hide Sound, Do, WithTurn, NewTurn, OneTurnMore;
    OwnGeneration(db, s);
    DoRetries(db, s, maxSteps, config);
    if db.sessions[s].status != COMPLETED && db.sessions[s].active.value !in db.activeTurns {
      var was, g := db.sessions[s], db.generations[db.sessions[s].active.value];
      var turn, q := NewTurn(0, g, s, "retry", maxSteps, Operator), Do(db, Retry(s, maxSteps), config);
      FreshTurn(db);
      RetryTurnIs(g, s, "retry", maxSteps);
      WithTurnFrame(db, turn, was, g);
      TurnAdded(db, q, turn, was, g);
    }
  }

  lemma DoRetries(db: Database, s: Id, maxSteps: nat, config: Config)
    requires s in db.sessions && db.sessions[s].id == s && db.sessions[s].active.Some?
    requires var g := db.sessions[s].active.value; g in db.generations && db.generations[g].id == g
    ensures var q, was, g := Do(db, Retry(s, maxSteps), config), db.sessions[s], db.sessions[s].active.value;
            var w := WithTurn(db, NewTurn(0, db.generations[g], s, "retry", maxSteps, Operator), was,
              db.generations[g]);
            if was.status == COMPLETED || g in db.activeTurns then q == db
            else q == w.(events := q.events,
                   sessions := w.sessions[s := was.(status := QUEUED, version := was.version + 1)],
                   generations := w.generations[g := db.generations[g].(status := QUEUED, waitReason := None,
                     cancelRequested := false, version := db.generations[g].version + 1)])
  {
    hide WithTurn, NewTurn, Logged;
  }

  lemma RetryTurnIs(g: IssueGeneration, s: Id, kind: string, steps: nat)
    ensures var turn := NewTurn(0, g, s, kind, steps, Operator);
            && turn.session == s && turn.generation == g.id && turn.status == QueuedTurn && turn.kind == kind
            && turn.leaseEpoch == g.leaseEpoch && turn.maxSteps == steps && turn.origin == Operator
  {
  }

  /**
   An operator's start gives an issue a new generation of 100 steps and one turn of 25, in the session of the issue if
   it has one and in a new one otherwise.
   */
  lemma OperatorOpens(db: Database, d: Delivery, issueIid: int, config: Config)
    requires Sound(db)
    ensures var q := Do(db, OperatorStart(d, issueIid), config);
            var key := IssueKey(d.event.instance, d.event.project, issueIid);
            && key in q.issues && q.issues == db.issues[key := q.issues[key]]
            && (key in db.issues ==> q.issues == db.issues)
            && var s := q.issues[key];
            && s in q.sessions && q.sessions == db.sessions[s := q.sessions[s]] && q.sessions[s].active.Some?
            && q.sessions[s].status == QUEUED && q.sessions[s].key == key
            && var g := q.sessions[s].active.value;
            && g !in db.generations && g in q.generations && q.generations == db.generations[g := q.generations[g]]
            && q.generations[g].session == s && q.generations[g].status == QUEUED && q.generations[g].maxSteps == 100
            && OneTurnMore(db, q, s, g, "code", 25, Operator)
            && q.links == db.links && q.outbound == db.outbound && q.inbound == db.inbound
  {
    hide *;
    var q, key := Do(db, OperatorStart(d, issueIid), config), IssueKey(d.event.instance, d.event.project, issueIid);
    FreshOpening(db);
    PreparedIs(db, d, issueIid);
    DoStarts(db, d, issueIid, config);
    var (begun, s, g) := Prepared(db, d, issueIid);
    var turn := NewTurn(0, g, s.id, "code", 25, Operator);
    RetryTurnIs(g, s.id, "code", 25);
    WithTurnFrame(begun, turn, s, g);
    TurnAdded(begun, q, turn, s, g);
    SameBefore(db, begun, q, s.id, g.id, "code", 25, Operator);
  }

  lemma DoStarts(db: Database, d: Delivery, issueIid: int, config: Config)
    ensures var q := Do(db, OperatorStart(d, issueIid), config);
            var (begun, s, g) := Prepared(db, d, issueIid);
            q == WithTurn(begun, NewTurn(0, g, s.id, "code", 25, Operator), s, g).(events := q.events)
  {
    hide WithTurn, NewTurn, Logged, Prepared;
  }

  lemma PreparedIs(db: Database, d: Delivery, issueIid: int)
    requires Sound(db)
    ensures var key := IssueKey(d.event.instance, d.event.project, issueIid);
            var (q, s, g) := Prepared(db, d, issueIid);
            && (key in db.issues ==> db.issues[key] == s.id && q.issues == db.issues)
            && s.key == key && s.active == Some(g.id) && s.status == QUEUED && g.session == s.id && g.status == QUEUED
            && g.maxSteps == 100 && g.id !in db.generations && db.nextId <= q.nextId
            && q == db.(nextId := q.nextId, sessions := db.sessions[s.id := s], issues := db.issues[key := s.id],
                 generations := db.generations[g.id := g])
  {
    FreshOpening(db);
    IssueIsItself(db, IssueKey(d.event.instance, d.event.project, issueIid));
    hide *;
    PreparedSo(db, d, issueIid);
  }

  lemma IssueIsItself(db: Database, key: IssueKey)
    requires Sound(db)
    ensures key in db.issues ==>
              db.issues[key] in db.sessions && db.sessions[db.issues[key]].id == db.issues[key] &&
              db.sessions[db.issues[key]].key == key
  {
    hide GenerationsSound, IdsSound, TurnsSound, JobsSound, InboundSound, ConsumptionSound;
  }

  lemma PreparedSo(db: Database, d: Delivery, issueIid: int)
    requires var key := IssueKey(d.event.instance, d.event.project, issueIid);
             key in db.issues ==>
               db.issues[key] in db.sessions && db.sessions[db.issues[key]].id == db.issues[key] &&
               db.sessions[db.issues[key]].key == key
    requires forall n: Id | db.nextId <= n :: n !in db.generations
    ensures var key := IssueKey(d.event.instance, d.event.project, issueIid);
            var (q, s, g) := Prepared(db, d, issueIid);
            && (key in db.issues ==> db.issues[key] == s.id && q.issues == db.issues)
            && s.key == key && s.active == Some(g.id) && s.status == QUEUED && g.session == s.id && g.status == QUEUED
            && g.maxSteps == 100 && g.id !in db.generations && db.nextId <= q.nextId
            && q == db.(nextId := q.nextId, sessions := db.sessions[s.id := s], issues := db.issues[key := s.id],
                 generations := db.generations[g.id := g])
  {
    var key := IssueKey(d.event.instance, d.event.project, issueIid);
    assert key in db.issues ==> db.issues == db.issues[key := db.issues[key]];
    hide Or;
  }

  // ---------------------------------------------------------------- what is remembered of an event

  /** The same events, but for what has consumed one of them. */
  ghost predicate SameEvents(a: map<Id, InboundEvent>, b: map<Id, InboundEvent>) {
    a.Keys == b.Keys && forall id | id in a :: a[id] == b[id].(consumedBy := a[id].consumedBy)
  }

  lemma QueuedEvents(db: Database, s: IssueSession, g: IssueGeneration, e: Event, event: Id, config: Config)
    ensures SameEvents(Queued(db, s, g, e, event, config).0.inbound, db.inbound)
  {
    hide *;
    var w := WithTurn(db, FollowUpTurn(s, g, e, event, config), s, g);
    WithTurnFrame(db, FollowUpTurn(s, g, e, event, config), s, g);
    QueuedUnfolds(db, s, g, e, event, config);
    ConsumedEvents(w, event, db.nextId);
    BothSavedIs(Consumed(w, event, db.nextId), s.(status := QUEUED), g.(status := QUEUED, waitReason := None));
  }

  lemma ConsumedEvents(db: Database, event: Id, turn: Id)
    ensures SameEvents(Consumed(db, event, turn).inbound, db.inbound)
  {
  }

  lemma RestartedEvents(db: Database, s: IssueSession, g: IssueGeneration, e: Event, config: Config)
    ensures IssueIngestion.Restarted(db, s, g, config).0.inbound == db.inbound
    ensures Merged(db, s, g, e).inbound == db.inbound
  {
    hide MergedBecause, Logged;
  }

  lemma EasyReaction(db: Database, s: IssueSession, g: IssueGeneration, e: Event, decision: Decision, event: Id,
      config: Config)
    requires s.status == COMPLETED || e.command == STATUS || (Proceeds(e) && !IsHook(e) && g.id in db.activeTurns)
    ensures Reaction(db, s, g, e, decision, event, config).0.inbound == db.inbound
  {
    hide Queued, ShouldQueue, Restarts, Merged, IssueIngestion.Restarted, BothSaved;
  }

  lemma SameEventsAgain(db: Database)
    ensures SameEvents(db.inbound, db.inbound)
  {
  }

  lemma ReactionEvents(db: Database, s: IssueSession, g: IssueGeneration, e: Event, decision: Decision, event: Id,
      config: Config)
    ensures SameEvents(Reaction(db, s, g, e, decision, event, config).0.inbound, db.inbound)
  {
    hide Reaction, Queued, IssueIngestion.Restarted, Merged, ShouldQueue, Restarts, BothSaved, SameEvents;
    RestartedEvents(db, s, g, e, config);
    SameEventsAgain(db);
    if s.status == COMPLETED || e.command == STATUS {
      EasyReaction(db, s, g, e, decision, event, config);
    } else if e.command == CANCEL {
      CancelReaction(db, s, g, e, decision, event, config);
      BothSavedIs(db, s.(status := CANCELLED), g.(cancelRequested := true, status := CANCELLED));
    } else if e.eventType == "Merge Request Hook" && e.action == "merge" {
      MergeReaction(db, s, g, e, decision, event, config);
    } else if e.eventType == "Merge Request Hook" && e.action == "close" {
      CloseReaction(db, s, g, e, decision, event, config);
      BothSavedIs(db, s.(status := WAITING_HUMAN), g.(status := WAITING_HUMAN, waitReason := Some(MR_CLOSED)));
    } else if g.id in db.activeTurns {
      EasyReaction(db, s, g, e, decision, event, config);
    } else {
      var (restarted, s', g') := IssueIngestion.Restarted(db, s, g, config);
      WorkReaction(db, s, g, e, decision, event, config);
      QueuedEvents(db, s, g, e, event, config);
      QueuedEvents(restarted, s', g', e, event, config);
    }
  }

  /** The event is on record once, under its own key, and as authorized only if its actor may act. */
  ghost predicate OnRecord(db: Database, q: Database, d: Delivery, id: Id) {
    && id !in db.inbound && id in q.inbound && q.inbound.Keys == db.inbound.Keys + {id}
    && q.inbound[id].delivery == d.event.delivery
    && q.inbound[id].key == ActionKey(d.event.project, d.event.objectKey, d.event.action)
    && (q.inbound[id].authorized ==> MayAct(d))
    && forall other | other in db.inbound :: q.inbound[other] == db.inbound[other]
  }

  lemma RecordedOnRecord(db: Database, d: Delivery, authorized: bool, reason: string)
    requires Sound(db) && (authorized ==> MayAct(d))
    ensures OnRecord(db, OnlyRecorded(db, d.event, authorized, reason).0, d, db.nextId)
  {
    FreshIds(db);
    hide Sound, MayAct;
  }

  lemma SeenOnRecord(db: Database, d: Delivery, s: Id, g: Id)
    requires Sound(db)
    ensures OnRecord(db, Seen(db, s, g, d.event, Authorize(d)), d, db.nextId)
    ensures var event := Seen(db, s, g, d.event, Authorize(d)).inbound[db.nextId];
            event.session == Some(s) && event.generation == Some(g) && event.authorized == MayAct(d)
  {
    FreshIds(db);
    AuthorizedIs(d);
    hide Sound, MayAct, Authorize, Logged;
  }

  /** An event about a session is recorded with it, and with whether its actor may act. */
  lemma AboutSessionOnRecord(db: Database, d: Delivery, config: Config, s: Id)
    requires Sound(db) && !Clashes(db, d.event) && d.event.relevant && Concerns(db, d.event, s)
    ensures var q := Do(db, Deliver(d), config);
            && q.inbound.Keys == db.inbound.Keys + {db.nextId} && db.nextId !in db.inbound
            && q.inbound[db.nextId].delivery == d.event.delivery
            && q.inbound[db.nextId].key == ActionKey(d.event.project, d.event.objectKey, d.event.action)
            && q.inbound[db.nextId].authorized == MayAct(d) && q.inbound[db.nextId].session == Some(s)
            && q.inbound[db.nextId].generation == db.sessions[s].active
  {
    Reacts(db, d, config, s);
    var g := db.generations[db.sessions[s].active.value];
    SeenOnRecord(db, d, s, g.id);
    ReactionEvents(Seen(db, s, g.id, d.event, Authorize(d)), db.sessions[s], g, d.event, Authorize(d), db.nextId,
      config);
    hide Sound, Clashes, Concerns, Reaction, Seen, Ingested, Do, Authorize, MayAct;
  }

  /** An event that starts nothing and is about no session is recorded, as authorized only if its actor may act. */
  lemma StrayOnRecord(db: Database, d: Delivery, config: Config)
    requires Sound(db) && !Clashes(db, d.event)
    requires d.event.relevant ==>
               (forall s :: !Concerns(db, d.event, s)) && !d.event.labelAdded && d.event.command != RUN
    ensures OnRecord(db, Do(db, Deliver(d), config), d, db.nextId)
    ensures Do(db, Deliver(d), config).inbound[db.nextId].authorized == (d.event.relevant && MayAct(d))
  {
    NobodyConcerned(db, d.event);
    AuthorizedIs(d);
    hide Sound, Clashes, Concerns, Resolved, Started, Handled, Authorize, MayAct, OnRecord, OnlyRecorded;
    if d.event.relevant {
      RecordedOnRecord(db, d, MayAct(d), Or(Authorize(d).reason, "no open issue session"));
      RecordedAs(db, d.event, MayAct(d), Or(Authorize(d).reason, "no open issue session"));
    } else {
      RecordedOnRecord(db, d, false, d.event.ignoreReason);
      RecordedAs(db, d.event, false, d.event.ignoreReason);
    }
  }

  lemma RecordedAs(db: Database, e: Event, authorized: bool, reason: string)
    ensures var q := OnlyRecorded(db, e, authorized, reason).0;
            db.nextId in q.inbound && q.inbound[db.nextId].authorized == authorized
  {
  }
}
