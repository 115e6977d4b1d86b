/**
 Who may do what to an issue session: the effect of every command, hook and comment on the tables, for any sound
 database and any delivery that is new to it.
 */
module IssueLaws {
  import opened Wrappers
  import opened IssueModels
  import opened IssueIngestion
  import opened IssueSystem

  // ---------------------------------------------------------------- which session, and who acts

  predicate LinkFits(link: ScmLink, e: Event) {
    e.mrIid.Some? && link.targetProject == e.project && link.mrIid == e.mrIid
  }

  /** The session of the event's issue, or else the one last linked to its merge request. */
  ghost predicate Concerns(db: Database, e: Event, s: Id) {
    && s in db.sessions
    && if e.issueIid.Some? then db.sessions[s].key == IssueKey(e.instance, e.project, e.issueIid.value)
       else exists k :: LastFit(db.links, e, k) && db.links[k].session == s
  }

  ghost predicate LastFit(links: seq<ScmLink>, e: Event, k: int) {
    0 <= k < |links| && LinkFits(links[k], e) && forall j | k < j < |links| :: !LinkFits(links[j], e)
  }

  lemma {:induction false} LastLink(links: seq<ScmLink>, e: Event)
    requires e.mrIid.Some?
    ensures var found := LinkOfMergeRequest(links, e.project, e.mrIid.value);
            && (found.Some? ==> exists k :: LastFit(links, e, k))
            && (forall k | LastFit(links, e, k) :: found == Some(links[k]))
  {
    if links != [] {
      var n := |links| - 1;
      if LinkFits(links[n], e) {
        assert LastFit(links, e, n);
      } else {
        LastLink(links[..n], e);
        if k :| LastFit(links[..n], e, k) {
          assert LastFit(links, e, k);
        }
        forall k | LastFit(links, e, k)
          ensures LastFit(links[..n], e, k)
        {
        }
      }
    }
  }

  lemma ConcernsResolved(db: Database, e: Event, s: Id)
    requires Sound(db)
    ensures Concerns(db, e, s) <==> s in db.sessions && Resolved(db, e) == Some(db.sessions[s])
  {
    hide IdsSound, GenerationsSound, TurnsSound, JobsSound, InboundSound, ConsumptionSound, LinkOfMergeRequest;
    if e.issueIid.None? && e.mrIid.Some? {
      LastLink(db.links, e);
    }
    hide LastFit;
  }

  /** Who may act: a label without an actor, an allowlisted user, and members of sufficient level; never the bot. */
  predicate MayAct(d: Delivery) {
    var e, r := d.event, d.registration;
    match e.actor
    case None => e.labelAdded
    case Some(user) =>
      || user in r.actorAllowlist
      || (r.botUser != Some(user) &&
          match d.membership(e.project, user)
          case Some(level) => level >= r.minimumLevel
          case None => r.actorAllowlist == {} && e.command in {None, Some("/agent status")})
  }

  lemma AuthorizedIs(d: Delivery)
    ensures Authorize(d).authorized == MayAct(d)
  {
  }

  /** A higher level never takes a right away. */
  lemma LevelsRise(d: Delivery, higher: Membership, user: int, level: int)
    requires d.event.actor == Some(user) && d.membership(d.event.project, user) == Some(level)
    requires higher(d.event.project, user).Some? && higher(d.event.project, user).value >= level
    ensures Authorize(d).authorized ==> Authorize(d.(membership := higher)).authorized
  {
  }

  // ---------------------------------------------------------------- what stays

  /** Sessions, generations, turns and jobs are what they were. */
  predicate SameTables(db: Database, q: Database) {
    && q.sessions == db.sessions && q.issues == db.issues && q.generations == db.generations
    && q.turns == db.turns && q.activeTurns == db.activeTurns && q.jobs == db.jobs && q.links == db.links
  }

  /** Nor is anything to be said to anyone. */
  predicate Quiet(db: Database, q: Database) {
    SameTables(db, q) && q.outbound == db.outbound
  }

  /** An event that is new to the database, about a session that is not completed. */
  ghost predicate Arrives(db: Database, d: Delivery, s: Id) {
    && Sound(db) && !Clashes(db, d.event) && d.event.relevant && Concerns(db, d.event, s)
    && db.sessions[s].status != COMPLETED
  }

  predicate IsHook(e: Event) {
    e.eventType == "Merge Request Hook" && (e.action == "merge" || e.action == "close")
  }

  lemma RecordedQuiet(db: Database, e: Event, authorized: bool, reason: string)
    ensures Quiet(db, OnlyRecorded(db, e, authorized, reason).0)
    ensures OnlyRecorded(db, e, authorized, reason).1.verdict == Ignored
  {
  }

  /** An event about a session is recorded, and then its generation is looked at. */
  lemma Reacts(db: Database, d: Delivery, config: Config, s: Id)
    requires Sound(db) && !Clashes(db, d.event) && d.event.relevant && Concerns(db, d.event, s)
    ensures s in db.sessions && db.sessions[s].id == s
    ensures db.sessions[s].active.Some? && db.sessions[s].active.value in db.generations
    ensures db.generations[db.sessions[s].active.value].id == db.sessions[s].active.value
    ensures var g := db.generations[db.sessions[s].active.value];
            var seen := Seen(db, s, g.id, d.event, Authorize(d));
            && Ingested(db, d, config) ==
               Reaction(seen, db.sessions[s], g, d.event, Authorize(d), db.nextId, config)
            && Do(db, Deliver(d), config) == Ingested(db, d, config).0
            && Quiet(db, seen) && seen.links == db.links && seen.nextId == db.nextId + 1
            && db.nextId in seen.inbound && seen.inbound[db.nextId].consumedBy.None?
  {
    hide *;
    ConcernsMeans(db, d.event, s);
    OwnGeneration(db, s);
    ConcernsResolved(db, d.event, s);
    var g := db.generations[db.sessions[s].active.value];
    IngestedHandles(db, d, config, db.sessions[s]);
    HandledIs(db, db.sessions[s], g, d, Authorize(d), config);
    SeenQuietly(db, s, g.id, d.event, Authorize(d));
  }

  lemma ConcernsMeans(db: Database, e: Event, s: Id)
    requires Concerns(db, e, s)
    ensures s in db.sessions
  {
  }

  lemma IngestedHandles(db: Database, d: Delivery, config: Config, s: IssueSession)
    requires !Clashes(db, d.event) && d.event.relevant && Resolved(db, d.event) == Some(s)
    requires s.active.Some? && s.active.value in db.generations
    ensures Ingested(db, d, config) == Handled(db, s, db.generations[s.active.value], d, Authorize(d), config)
    ensures Do(db, Deliver(d), config) == Ingested(db, d, config).0
  {
    hide Clashes, OnlyRecorded, Resolved, Started, Authorize, IsStart, Handled;
  }

  lemma SeenQuietly(db: Database, s: Id, g: Id, e: Event, decision: Decision)
    ensures var seen := Seen(db, s, g, e, decision);
            && Quiet(db, seen) && seen.links == db.links && seen.nextId == db.nextId + 1
            && db.nextId in seen.inbound && seen.inbound[db.nextId].consumedBy.None?
  {
    hide Logged;
  }

  /** Irrelevant events, and events about completed sessions, change nothing. */
  lemma NothingToDo(db: Database, d: Delivery, config: Config)
    requires Sound(db) && !Clashes(db, d.event)
    requires !d.event.relevant || exists s :: Concerns(db, d.event, s) && db.sessions[s].status == COMPLETED
    ensures Quiet(db, Do(db, Deliver(d), config)) && Ingested(db, d, config).1.verdict == Ignored
  {
    hide Sound, Clashes, OnlyRecorded, Resolved, Started, Authorize, IsStart, Handled;
    if d.event.relevant {
      var s :| Concerns(db, d.event, s) && db.sessions[s].status == COMPLETED;
      hide Concerns;
      Reacts(db, d, config, s);
      hide Quiet, Seen, Ingested;
    } else {
      RecordedQuiet(db, d.event, false, d.event.ignoreReason);
    }
  }

  // ---------------------------------------------------------------- commands and hooks

  /** Who may not act changes no session, generation, turn or job, whatever the event, merge requests excepted. */
  lemma StrangersChangeNothing(db: Database, d: Delivery, config: Config)
    requires Sound(db) && !Clashes(db, d.event) && !MayAct(d) && !IsHook(d.event)
    ensures SameTables(db, Do(db, Deliver(d), config))
    ensures d.event.command != Some("/agent status") ==> Quiet(db, Do(db, Deliver(d), config))
  {
    hide *;
    var e := d.event;
    AuthorizedIs(d);
    if e.relevant && exists s :: Concerns(db, e, s) {
      var s :| Concerns(db, e, s);
      Reacts(db, d, config, s);
      var g := db.generations[db.sessions[s].active.value];
      var seen := Seen(db, s, g.id, e, Authorize(d));
      StrangerReacts(seen, db.sessions[s], g, e, Authorize(d), db.nextId, config);
      QuietTwice(db, seen, Do(db, Deliver(d), config));
    } else {
      NobodyConcerned(db, e);
      StrangerStartsNothing(db, d, config);
      QuietIsSame(db, Do(db, Deliver(d), config));
    }
  }

  lemma QuietTwice(a: Database, b: Database, c: Database)
    requires Quiet(a, b) && SameTables(b, c)
    ensures SameTables(a, c) && (Quiet(b, c) ==> Quiet(a, c))
  {
  }

  lemma QuietIsSame(a: Database, b: Database)
    requires Quiet(a, b)
    ensures SameTables(a, b)
  {
  }

  lemma NobodyConcerned(db: Database, e: Event)
    requires Sound(db)
    ensures (forall s :: !Concerns(db, e, s)) ==> Resolved(db, e).None?
  {
    ResolvedStands(db, e);
    if Resolved(db, e).Some? {
      ConcernsResolved(db, e, Resolved(db, e).value.id);
    }
  }

  lemma StrangerStartsNothing(db: Database, d: Delivery, config: Config)
    requires !Clashes(db, d.event) && !MayAct(d) && (d.event.relevant ==> Resolved(db, d.event).None?)
    ensures Quiet(db, Do(db, Deliver(d), config))
  {
    AuthorizedIs(d);
    hide Clashes, OnlyRecorded, Resolved, Started, Handled, Authorize, Quiet;
    forall authorized, reason
      ensures Quiet(db, OnlyRecorded(db, d.event, authorized, reason).0)
    {
      RecordedQuiet(db, d.event, authorized, reason);
    }
  }

  lemma StrangerReacts(db: Database, s: IssueSession, g: IssueGeneration, e: Event, decision: Decision, event: Id,
      config: Config)
    requires !decision.authorized && !IsHook(e)
    ensures var q := Reaction(db, s, g, e, decision, event, config).0;
            SameTables(db, q) && (e.command != Some("/agent status") ==> Quiet(db, q))
  {
    hide Queued, Restarts, BothSaved, Restarted, Merged;
  }

  /** `/agent status` is answered once, for anyone, and changes nothing. */
  lemma StatusAnswers(db: Database, d: Delivery, config: Config, s: Id)
    requires Arrives(db, d, s) && d.event.command == Some("/agent status")
    ensures var q := Do(db, Deliver(d), config);
            var key := StatusNote(s, d.event.delivery);
            && SameTables(db, q) && Ingested(db, d, config).1.verdict == Accepted
            && q.outbound == if key in db.outbound then db.outbound
                             else db.outbound[key := OutboundAction(s, db.sessions[s].active.value, None)]
  {
    hide Arrives, Sound, Concerns, Clashes, Seen, Ingested, Authorize, Reaction, Do;
    ArrivesMeans(db, d, s);
    Reacts(db, d, config, s);
    var g := db.generations[db.sessions[s].active.value];
    var seen := Seen(db, s, g.id, d.event, Authorize(d));
    StatusReaction(seen, db.sessions[s], g, d.event, Authorize(d), db.nextId, config);
  }

  lemma StatusReaction(db: Database, s: IssueSession, g: IssueGeneration, e: Event, decision: Decision, event: Id,
      config: Config)
    requires s.status != COMPLETED && e.command == Some("/agent status")
    ensures var (q, answer) := Reaction(db, s, g, e, decision, event, config);
            var key := StatusNote(s.id, e.delivery);
            && answer.verdict == Accepted
            && q == if key in db.outbound then db
                    else db.(outbound := db.outbound[key := OutboundAction(s.id, g.id, None)])
  {
    hide Merged, Queued, ShouldQueue, Restarts, IssueIngestion.Restarted, BothSaved;
  }

  /** `/agent cancel` cancels the session and its active generation, if the actor may act, and leaves all else alone. */
  lemma CancelCancels(db: Database, d: Delivery, config: Config, s: Id)
    requires Arrives(db, d, s) && d.event.command == Some("/agent cancel")
    ensures var q := Do(db, Deliver(d), config);
            var was, g := db.sessions[s], db.sessions[s].active.value;
            if !MayAct(d) then Quiet(db, q) && Ingested(db, d, config).1.verdict == Ignored
            else
              && Ingested(db, d, config).1.verdict == Accepted && g in db.generations
              && q.sessions == db.sessions[s := was.(status := CANCELLED, version := was.version + 1)]
              && q.generations == db.generations[g := db.generations[g].(status := CANCELLED, cancelRequested := true,
                   version := db.generations[g].version + 1)]
              && SameWork(db, q)
  {
    hide *;
    ArrivesMeans(db, d, s);
    Reacts(db, d, config, s);
    AuthorizedIs(d);
    var was, g := db.sessions[s], db.generations[db.sessions[s].active.value];
    var seen := Seen(db, s, g.id, d.event, Authorize(d));
    CancelReaction(seen, was, g, d.event, Authorize(d), db.nextId, config);
    if MayAct(d) {
      SavedAfter(db, seen, Do(db, Deliver(d), config), was.(status := CANCELLED),
        g.(cancelRequested := true, status := CANCELLED));
    }
  }

  /** Everything but sessions and generations is what it was. */
  predicate SameWork(db: Database, q: Database) {
    SameTables(db.(sessions := q.sessions, generations := q.generations), q) && q.outbound == db.outbound
  }

  /** Neither a status request nor a cancellation. */
  predicate Proceeds(e: Event) {
    e.command != Some("/agent status") && e.command != Some("/agent cancel")
  }

  ghost predicate FirstOf(links: seq<ScmLink>, generation: Id, k: int) {
    0 <= k < |links| && links[k].generation == generation && forall j | 0 <= j < k :: links[j].generation != generation
  }

  lemma {:induction false} FirstLink(links: seq<ScmLink>, generation: Id)
    ensures var found := LinkOfGeneration(links, generation);
            && (found.Some? ==> exists k :: FirstOf(links, generation, k))
            && (forall k | FirstOf(links, generation, k) :: found == Some(links[k]))
  {
    if links != [] {
      if links[0].generation == generation {
        assert FirstOf(links, generation, 0);
      } else {
        FirstLink(links[1..], generation);
        if k :| FirstOf(links[1..], generation, k) {
          assert FirstOf(links, generation, k + 1);
        }
        forall k | FirstOf(links, generation, k)
          ensures FirstOf(links[1..], generation, k - 1)
        {
        }
      }
    }
  }

  /** The link expects another head than the one that was merged. */
  ghost predicate Mutated(db: Database, g: Id, e: Event) {
    exists k :: FirstOf(db.links, g, k) && db.links[k].expectedHead != "" && e.pipelineSha != ""
                && db.links[k].expectedHead != e.pipelineSha
  }

  lemma MergeReasonIs(db: Database, seen: Database, g: IssueGeneration, e: Event)
    requires seen.links == db.links
    ensures MergedBecause(seen, g, e) == if Mutated(db, g.id, e) then EXTERNAL_MUTATION else MANAGED
  {
    FirstLink(db.links, g.id);
    if k :| FirstOf(db.links, g.id, k) {
      assert LinkOfGeneration(db.links, g.id) == Some(db.links[k]);
    }
    hide LinkOfGeneration;
  }

  lemma MergedIs(db: Database, s: IssueSession, g: IssueGeneration, e: Event)
    ensures Merged(db, s, g, e) == BothSaved(db, s.(status := COMPLETED), g.(status := COMPLETED,
              mergeReason := Some(MergedBecause(db, g, e)), waitReason := None, cancelRequested := true)).(
              events := Merged(db, s, g, e).events)
  {
    hide MergedBecause, Logged;
  }

  lemma ArrivesMeans(db: Database, d: Delivery, s: Id)
    requires Arrives(db, d, s)
    ensures Sound(db) && !Clashes(db, d.event) && d.event.relevant && Concerns(db, d.event, s)
    ensures s in db.sessions && db.sessions[s].status != COMPLETED
  {
    hide Sound, Clashes;
  }

  lemma SavedAfter(db: Database, seen: Database, q: Database, s: IssueSession, g: IssueGeneration)
    requires Quiet(db, seen) && q == BothSaved(seen, s, g).(events := q.events)
    ensures q.sessions == db.sessions[s.id := s.(version := s.version + 1)]
    ensures q.generations == db.generations[g.id := g.(version := g.version + 1)] && SameWork(db, q)
  {
  }

  lemma CancelReaction(db: Database, s: IssueSession, g: IssueGeneration, e: Event, decision: Decision, event: Id,
      config: Config)
    requires s.status != COMPLETED && e.command == Some("/agent cancel")
    ensures var (q, answer) := Reaction(db, s, g, e, decision, event, config);
            if decision.authorized then
              && answer.verdict == Accepted
              && q == BothSaved(db, s.(status := CANCELLED), g.(cancelRequested := true, status := CANCELLED))
            else q == db && answer.verdict == Ignored
  {
    hide Merged, Queued, ShouldQueue, Restarts, IssueIngestion.Restarted, BothSaved, Noted;
  }

  lemma CloseReaction(db: Database, s: IssueSession, g: IssueGeneration, e: Event, decision: Decision, event: Id,
      config: Config)
    requires s.status != COMPLETED && Proceeds(e) && e.eventType == "Merge Request Hook" && e.action == "close"
    ensures var (q, answer) := Reaction(db, s, g, e, decision, event, config);
            && answer.verdict == Accepted
            && q == BothSaved(db, s.(status := WAITING_HUMAN),
                     g.(status := WAITING_HUMAN, waitReason := Some(MR_CLOSED)))
  {
    hide Merged, Queued, ShouldQueue, Restarts, IssueIngestion.Restarted, BothSaved, Noted;
  }

  lemma MergeReaction(db: Database, s: IssueSession, g: IssueGeneration, e: Event, decision: Decision, event: Id,
      config: Config)
    requires s.status != COMPLETED && Proceeds(e) && e.eventType == "Merge Request Hook" && e.action == "merge"
    ensures var (q, answer) := Reaction(db, s, g, e, decision, event, config);
            q == Merged(db, s, g, e) && answer.verdict == Accepted
  {
    hide Merged, Queued, ShouldQueue, Restarts, IssueIngestion.Restarted, BothSaved, Noted;
  }

  /** A merge completes the session and its active generation, whoever merged. */
  lemma MergeCompletes(db: Database, d: Delivery, config: Config, s: Id)
    requires Arrives(db, d, s) && Proceeds(d.event)
    requires d.event.eventType == "Merge Request Hook" && d.event.action == "merge"
    ensures var q := Do(db, Deliver(d), config);
            var was, g := db.sessions[s], db.sessions[s].active.value;
            && Ingested(db, d, config).1.verdict == Accepted && g in db.generations
            && q.sessions == db.sessions[s := was.(status := COMPLETED, version := was.version + 1)]
            && q.generations == db.generations[g := db.generations[g].(status := COMPLETED, waitReason := None,
                 cancelRequested := true, version := db.generations[g].version + 1,
                 mergeReason := Some(if Mutated(db, g, d.event) then EXTERNAL_MUTATION else MANAGED))]
            && SameWork(db, q)
  {
    hide *;
    ArrivesMeans(db, d, s);
    Reacts(db, d, config, s);
    var was, g := db.sessions[s], db.generations[db.sessions[s].active.value];
    var seen := Seen(db, s, g.id, d.event, Authorize(d));
    MergeReasonIs(db, seen, g, d.event);
    MergedIs(seen, was, g, d.event);
    MergeReaction(seen, was, g, d.event, Authorize(d), db.nextId, config);
    var merged := g.(status := COMPLETED, mergeReason := Some(MergedBecause(seen, g, d.event)), waitReason := None,
        cancelRequested := true);
    SavedAfter(db, seen, Do(db, Deliver(d), config), was.(status := COMPLETED), merged);
  }

  /** A merge request that is closed leaves the session to a human, whoever closed it. */
  lemma CloseWaits(db: Database, d: Delivery, config: Config, s: Id)
    requires Arrives(db, d, s) && Proceeds(d.event)
    requires d.event.eventType == "Merge Request Hook" && d.event.action == "close"
    ensures var q := Do(db, Deliver(d), config);
            var was, g := db.sessions[s], db.sessions[s].active.value;
            && Ingested(db, d, config).1.verdict == Accepted && g in db.generations
            && q.sessions == db.sessions[s := was.(status := WAITING_HUMAN, version := was.version + 1)]
            && q.generations == db.generations[g := db.generations[g].(status := WAITING_HUMAN,
                 waitReason := Some(MR_CLOSED), version := db.generations[g].version + 1)]
            && SameWork(db, q)
  {
    hide *;
    ArrivesMeans(db, d, s);
    Reacts(db, d, config, s);
    var was, g := db.sessions[s], db.generations[db.sessions[s].active.value];
    var seen := Seen(db, s, g.id, d.event, Authorize(d));
    CloseReaction(seen, was, g, d.event, Authorize(d), db.nextId, config);
    SavedAfter(db, seen, Do(db, Deliver(d), config), was.(status := WAITING_HUMAN),
      g.(status := WAITING_HUMAN, waitReason := Some(MR_CLOSED)));
  }
}
