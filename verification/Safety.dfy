/** The invariant holds in every world any sequence of enabled steps can reach. */
module Safety {
  import opened Model
  import opened Deciding
  import opened Transactions
  import opened Invariant
  import opened Effects
  import opened World
  import opened Reachable
  import opened Steps

  // ---- worker steps: the database --------------------------------------------------------

  /** A worker transaction other than a start or a commit keeps the event rows and evolves the rest. */
  ghost predicate QuietPhase(phase: Phase) { !phase.Starting? && !phase.Committing? }

  lemma QuietDb(w: World, id: Id, c: Choice)
    requires Inv(w.db) && CanWork(w, id, c) && QuietPhase(w.workers[id].phase)
    ensures var db := DbAfter(w.db, w.queueConfigured, w.workers[id], c);
      Inv(db) && Evolves(w.db, db, {}, {}) && db.events.Keys == w.db.events.Keys
  {
    hide Inv, Evolves, RestoreCursor, FollowUp, MarkFailed, CompleteEvent, EnsureScope;
    var s, k := w.db, w.workers[id];
    var r, now := k.task.run, c.clock.check;
    Unchanged(s, {}, {});
    match k.phase
    case Scoping(_, _, _) =>
      ScopeKeeps(s, ConnOf(s, r), c.newId);
      ScopeEvolves(s, ConnOf(s, r), c.newId);
      ScopeEvents(s, ConnOf(s, r), c.newId);
    case EmptyResult(_, _) =>
      FailedKeeps(s, r, NoIncludedFiles, now);
      FailedEvolves(s, r, NoIncludedFiles, now);
      FailedEvents(s, r, NoIncludedFiles, now);
    case FailingBuild(code) =>
      FailedKeeps(s, r, code, now);
      FailedEvolves(s, r, code, now);
      FailedEvents(s, r, code, now);
    case Built(x) =>
      if k.task.WebhookTask? {
        CompleteKeeps(s, k.task.event, r, x);
        CompleteEvolves(s, k.task.event, r, x);
        CompleteEvents(s, k.task.event, r, x);
      }
    case Failing =>
      if k.task.ManualTask? {
        FailedKeeps(s, r, c.code, now);
        FailedEvolves(s, r, c.code, now);
        FailedEvents(s, r, c.code, now);
      } else {
        FailWebhookKeeps(s, k.task.event, r, now);
        FailWebhookEvolves(s, k.task.event, r, now);
        FailWebhookEvents(s, k.task.event, r, now);
      }
    case FollowingUp =>
      FollowUpKeeps(s, r, TaskEvent(k.task), c.clock);
      FollowUpEvolves(s, r, TaskEvent(k.task), c.clock);
      FollowUpEvents(s, r, TaskEvent(k.task), c.clock);
    case DispatchFailing(next) =>
      DispatchFailedKeeps(s, next, now);
      DispatchFailedEvolves(s, next, now);
      DispatchFailedEvents(s, next, now);
    case _ =>
  }

  lemma ScopeEvents(s: State, conn: Id, newScope: Id)
    ensures EnsureScope(s, conn, newScope).events == s.events && EnsureScope(s, conn, newScope).runs == s.runs
  {
  }

  lemma FailedEvents(s: State, r: Id, code: FailureCode, now: Time)
    ensures MarkFailed(s, r, code, now).events == s.events
  {
  }

  lemma CompleteEvents(s: State, e: Id, r: Id, x: Id)
    ensures CompleteEvent(s, e, r, x).events.Keys == s.events.Keys
  {
  }

  lemma FailWebhookEvents(s: State, e: Id, r: Id, now: Time)
    ensures FailWebhook(s, e, r, now).events.Keys == s.events.Keys
  {
    hide RestoreCursor;
    var s1 := if r in s.runs && !IsTerminal(s.runs[r].status) then MarkFailed(s, r, SnapshotWriteFailed, now) else s;
    if LinkedTo(s, e, r) { RestoreOnlyCursors(UpdateEvent(s1, e, Decision.Queued, EventStatus.Failed, None), e); }
  }

  lemma DispatchFailedEvents(s: State, r: Id, now: Time)
    ensures DispatchFailed(s, r, now).events.Keys == s.events.Keys
  {
    hide RestoreCursor;
    if r in s.runs && s.runs[r].trigger.Some? && s.runs[r].trigger.value in s.events {
      var s1 := MarkFailed(s, r, QueueDispatchFailed, now);
      RestoreOnlyCursors(
        UpdateEvent(s1, s.runs[r].trigger.value, Decision.Queued, EventStatus.Failed, Some(r)), s.runs[r].trigger.value);
    }
  }

  lemma NextRunEvents(s: State, r: Id, t: FollowUpClock)
    requires r in s.runs
    ensures NextRun(s, r, t).0.events.Keys == s.events.Keys
  {
  }

  lemma FollowUpEvents(s: State, r: Id, e: Option<Id>, t: FollowUpClock)
    ensures FollowUp(s, r, e, t).0.events.Keys == s.events.Keys
  {
    hide NextRun;
    if Relevant(s, r, e) { NextRunEvents(s, r, t); }
  }

  // ---- worker steps: the phase -----------------------------------------------------------

  lemma QuietSound(w: World, id: Id, c: Choice)
    requires Sound(w) && CanWork(w, id, c) && QuietPhase(w.workers[id].phase)
    ensures Sound(Transacted(w, id, c))
  {
    hide Inv, Evolves, LinksSound, LinksCover, MessagesSound, AnnouncedSound, BegunSound, BuiltSound, PayloadsSound,
      DbAfter, PhaseAfter, HeadsOf, ResolvedOk, PhaseSound, Dispatchable, CommitOutcomeOf, Startable;
    QuietDb(w, id, c);
    Carry(w, DbAfter(w.db, w.queueConfigured, w.workers[id], c), {});
    ClockFree(Commit(w, DbAfter(w.db, w.queueConfigured, w.workers[id], c)), c.clock.stale);
  }

  lemma StartingSound(w: World, id: Id, c: Choice)
    requires Sound(w) && CanWork(w, id, c) && w.workers[id].phase.Starting?
    ensures Sound(Transacted(w, id, c))
    ensures !c.outcome.Error? && Startable(w.db, w.workers[id].task.run) ==>
      var w' := Transacted(w, id, c); Started(w'.db.runs, w'.begun, w.workers[id].task.run)
  {
    hide Inv, Evolves, LinksSound, LinksCover, MessagesSound, AnnouncedSound, BegunSound, BuiltSound, PayloadsSound,
      DbAfter, PhaseAfter, HeadsOf, ResolvedOk, PhaseSound, Dispatchable, CommitOutcomeOf, Startable;
    var k := w.workers[id];
    Unchanged(w.db, {}, {});
    Carry(w, w.db, {});
    StartingDb(w, k, c);
    if !c.outcome.Error? && Startable(w.db, k.task.run) { CarryStart(w, k.task.run, c.clock.check); }
  }

  lemma CommitTransactionSound(w: World, id: Id, c: Choice)
    requires Sound(w) && CanWork(w, id, c) && w.workers[id].phase.Committing?
    ensures Sound(Transacted(w, id, c))
  {
    hide Inv, Evolves, LinksSound, LinksCover, MessagesSound, AnnouncedSound, BegunSound, BuiltSound, PayloadsSound,
      DbAfter, PhaseAfter, HeadsOf, ResolvedOk, PhaseSound, Dispatchable, CommitOutcomeOf, Startable;
    var k := w.workers[id];
    var r, phase := k.task.run, k.phase;
    Unchanged(w.db, {}, {});
    Carry(w, w.db, {});
    CommittingDb(w, k, c);
    if !c.outcome.Error? && CommitOutcomeOf(w.db, r, phase.scope) == Committed {
      CommittingSound(w, r, phase);
      CarryCommit(w, r, phase.scope, phase.version, phase.commit, c.newId, c.clock.check);
    }
  }

  lemma TransactedSound(w: World, id: Id, c: Choice)
    requires Sound(w) && CanWork(w, id, c)
    ensures Sound(Transacted(w, id, c))
  {
    hide Sound, Transacted;
    if w.workers[id].phase.Starting? { StartingSound(w, id, c); }
    else if w.workers[id].phase.Committing? { CommitTransactionSound(w, id, c); }
    else { QuietSound(w, id, c); }
  }

  lemma CommittingSound(w: World, r: Id, phase: Phase)
    requires PhaseSound(w.db, w.remote, w.links, w.begun, r, phase) && phase.Committing?
    ensures ResolvedOk(w.db.runs, w.remote, w.begun, r, phase.version, phase.commit)
  {
  }

  lemma StartingDb(w: World, k: Worker, c: Choice)
    requires k.phase.Starting?
    ensures DbAfter(w.db, w.queueConfigured, k, c)
      == if c.outcome.Error? || !Startable(w.db, k.task.run) then w.db else MarkRunning(w.db, k.task.run, c.clock.check)
  {
  }

  lemma CommittingDb(w: World, k: Worker, c: Choice)
    requires k.phase.Committing?
    ensures DbAfter(w.db, w.queueConfigured, k, c)
      == if c.outcome.Error? || CommitOutcomeOf(w.db, k.task.run, k.phase.scope) != Committed then w.db
         else CommitSnapshot(w.db, k.task.run, k.phase.scope, k.phase.commit, c.newId, c.clock.check)
  {
  }

  lemma SetPhase(w: World, id: Id, phase: Phase, tasks: set<Task>)
    requires Sound(w) && id in w.workers
    requires PhaseSound(w.db, w.remote, w.links, w.begun, w.workers[id].task.run, phase)
    requires forall t :: t in tasks ==> TaskSound(w.db, w.links, t)
    ensures Sound(w.(workers := w.workers[id := w.workers[id].(phase := phase)], tasks := w.tasks + tasks))
  {
    hide Inv, LinksSound, LinksCover, AnnouncedSound, BegunSound, BuiltSound, PayloadsSound, PhaseSound, Dispatchable;
  }

  lemma TriggerTask(s: State, links: set<(Id, Id)>, r: Id)
    requires LinksCover(s, links) && r in s.runs && !s.runs[r].status.Blocked? && r in s.issued
    ensures TaskSound(s, links, TaskFor(s, r)) && TaskFor(s, r).run == r
  {
  }

  predicate Fresh(w: World, k: Worker, c: Choice) {
    || k.phase.Starting? || k.phase.FollowingUp?
    || (k.phase.Committing? && !c.outcome.Error? && CommitOutcomeOf(w.db, k.task.run, k.phase.scope) == Committed)
  }

  /** Where most phases lead is already justified before their transaction. */
  lemma PhaseNow(w: World, k: Worker, c: Choice)
    requires !Fresh(w, k, c) && PhaseSound(w.db, w.remote, w.links, w.begun, k.task.run, k.phase)
    requires SnapshotsSound(w.db.runs, w.db.snapshots) && BegunSound(w.db.runs, w.remote, w.begun, w.links, w.announced)
    ensures PhaseSound(w.db, w.remote, w.links, w.begun, k.task.run, PhaseAfter(w, k, c))
  {
    hide FollowUp, TaskFor;
    var r := k.task.run;
    if k.phase.Committing? && CommitOutcomeOf(w.db, r, k.phase.scope) == Conflict {
      SnapshotMeansSucceeded(w.db, r);
    }
  }

  lemma SnapshotMeansSucceeded(s: State, r: Id)
    requires SnapshotsSound(s.runs, s.snapshots) && HasSnapshot(s.snapshots, r)
    ensures r in s.runs && s.runs[r].status.Succeeded?
  {
  }

  lemma TransactedDb(w: World, id: Id, c: Choice)
    requires id in w.workers
    ensures var w' := Transacted(w, id, c);
      && w'.db == DbAfter(w.db, w.queueConfigured, w.workers[id], c)
      && (w'.begun == w.begun
          || (var r := w.workers[id].task.run;
              Startable(w.db, r) && w'.begun == w.begun[r := |Heads(w, w.db.runs[r].ref)|]))
  {
    hide DbAfter, CommitOutcomeOf, Heads, Links;
  }

  lemma BegunGrows(w: World, id: Id, c: Choice)
    requires Sound(w) && id in w.workers
    ensures Grows(w.begun, Transacted(w, id, c).begun)
  {
    hide Transacted, Inv, LinksSound, LinksCover, MessagesSound, AnnouncedSound, BuiltSound, PayloadsSound, WorkersSound;
    TransactedDb(w, id, c);
    if Startable(w.db, w.workers[id].task.run) { NotBegun(w, w.workers[id].task.run); }
  }

  /** A start or a commit moves one run; every other transaction none. */
  lemma DbEvolves(w: World, id: Id, c: Choice)
    requires Inv(w.db) && CanWork(w, id, c)
    ensures Evolves(w.db, DbAfter(w.db, w.queueConfigured, w.workers[id], c), {}, {w.workers[id].task.run})
  {
    hide Inv, Evolves, DbAfter, CommitOutcomeOf, CommitSnapshot, MarkRunning;
    var k := w.workers[id];
    var r := k.task.run;
    Unchanged(w.db, {}, {r});
    if k.phase.Starting? {
      StartingDb(w, k, c);
      RunningEvolves(w.db, r, c.clock.check);
    } else if k.phase.Committing? {
      SnapshotsOf(w.db);
      KeysOf(w.db);
      CommittingDb(w, k, c);
      CommitEvolves(w.db, r, k.phase.scope, k.phase.commit, c.newId, c.clock.check);
    } else {
      QuietDb(w, id, c);
      MovedMore(w.db, DbAfter(w.db, w.queueConfigured, k, c), r);
    }
  }

  lemma MovedMore(s: State, s': State, r: Id)
    requires Evolves(s, s', {}, {})
    ensures Evolves(s, s', {}, {r})
  {
  }

  /** Where the worker stands next is justified in the world its transaction leaves. */
  lemma PhaseAfterSound(w: World, id: Id, c: Choice)
    requires Sound(w) && CanWork(w, id, c)
    ensures var w' := Transacted(w, id, c);
      PhaseSound(w'.db, w'.remote, w'.links, w'.begun, w.workers[id].task.run, PhaseAfter(w, w.workers[id], c))
  {
    hide Inv, Evolves, LinksSound, LinksCover, MessagesSound, AnnouncedSound, BegunSound, BuiltSound, PayloadsSound,
      PhaseSound, PhaseAfter, Transacted, TaskSound;
    var k := w.workers[id];
    var w' := Transacted(w, id, c);
    SnapshotsOf(w.db);
    if k.phase.Starting? {
      StartingPhase(w, id, c);
    } else if k.phase.FollowingUp? {
      FollowingPhase(w, id, c);
    } else if Fresh(w, k, c) {
      CommittedPhase(w, id, c);
    } else {
      PhaseNow(w, k, c);
      DbEvolves(w, id, c);
      TransactedDb(w, id, c);
      TransactedFrame(w, id, c);
      BegunGrows(w, id, c);
      PhaseKept(w.db, w'.db, {}, {k.task.run}, w.remote, w.links, w'.links, w.begun, w'.begun, k.task.run,
                PhaseAfter(w, k, c));
    }
  }

  lemma StartingPhase(w: World, id: Id, c: Choice)
    requires Sound(w) && CanWork(w, id, c) && w.workers[id].phase.Starting?
    ensures var w' := Transacted(w, id, c);
      PhaseSound(w'.db, w'.remote, w'.links, w'.begun, w.workers[id].task.run, PhaseAfter(w, w.workers[id], c))
  {
    hide Sound, Transacted, Started;
    StartingSound(w, id, c);
  }

  lemma CommittedPhase(w: World, id: Id, c: Choice)
    requires Sound(w) && CanWork(w, id, c) && w.workers[id].phase.Committing? && Fresh(w, w.workers[id], c)
    ensures var w' := Transacted(w, id, c);
      PhaseSound(w'.db, w'.remote, w'.links, w'.begun, w.workers[id].task.run, PhaseAfter(w, w.workers[id], c))
  {
    hide Sound, CommitSnapshot, CommitOutcomeOf, Heads, Links;
    var k := w.workers[id];
    CommittingDb(w, k, c);
    CommitEffect(w.db, k.task.run, k.phase.scope, k.phase.commit, c.newId, c.clock.check);
  }

  lemma FollowingPhase(w: World, id: Id, c: Choice)
    requires Sound(w) && CanWork(w, id, c) && w.workers[id].phase.FollowingUp?
    ensures var w' := Transacted(w, id, c);
      PhaseSound(w'.db, w'.remote, w'.links, w'.begun, w.workers[id].task.run, PhaseAfter(w, w.workers[id], c))
  {
    hide Sound, FollowUp, TaskFor, Inv, LinksCover, TaskSound, Transacted, RunsForward, EventsKept, SnapshotsKept,
      LinkStep, TriggerStep, StatusStep;
    QuietSound(w, id, c);
    TransactedDb(w, id, c);
    var k := w.workers[id];
    var w' := Transacted(w, id, c);
    FollowUpEvolves(w.db, k.task.run, TaskEvent(k.task), c.clock);
    CoverOf(w');
    KeysOf(w'.db);
    var (db', next) := FollowUp(w.db, k.task.run, TaskEvent(k.task), c.clock);
    if !c.outcome.Error? && w.queueConfigured && next.Some? { TriggerTask(w'.db, w'.links, next.value); }
  }

  lemma CoverOf(w: World)
    requires Sound(w)
    ensures LinksCover(w.db, w.links) && Inv(w.db)
  {
  }

  lemma WorkSound(w: World, id: Id, c: Choice)
    requires Sound(w) && CanWork(w, id, c)
    ensures Sound(AfterWork(w, id, c))
  {
    hide Sound, Transacted, PhaseAfter, PhaseSound, TaskSound;
    var k := w.workers[id];
    TransactedSound(w, id, c);
    PhaseAfterSound(w, id, c);
    TransactedFrame(w, id, c);
    if k.phase.Sending? {
      SendingMessage(w, id, c);
      SetPhase(Transacted(w, id, c), id, PhaseAfter(w, k, c), {k.phase.message});
    } else {
      SetPhase(Transacted(w, id, c), id, PhaseAfter(w, k, c), {});
      assert w.tasks + {} == w.tasks;
    }
  }

  lemma CommitFrame(w: World, db: State)
    ensures var w' := Commit(w, db);
      w'.workers == w.workers && w'.tasks == w.tasks && w'.remote == w.remote && w.links <= w'.links
  {
    hide Links;
  }

  lemma TransactedFrame(w: World, id: Id, c: Choice)
    requires id in w.workers
    ensures var w' := Transacted(w, id, c);
      w'.workers == w.workers && w'.tasks == w.tasks && w'.remote == w.remote && w.links <= w'.links
  {
    hide DbAfter, CommitOutcomeOf, Startable, Heads, Commit;
    CommitFrame(w, DbAfter(w.db, w.queueConfigured, w.workers[id], c));
  }

  lemma SendingMessage(w: World, id: Id, c: Choice)
    requires Sound(w) && CanWork(w, id, c) && w.workers[id].phase.Sending?
    ensures var w' := Transacted(w, id, c); TaskSound(w'.db, w'.links, w.workers[id].phase.message)
  {
    hide Inv, LinksSound, MessagesSound, AnnouncedSound, BegunSound, BuiltSound, PayloadsSound, DbAfter, Links;
    assert PhaseSound(w.db, w.remote, w.links, w.begun, w.workers[id].task.run, w.workers[id].phase);
    IdleDb(w, id, c);
  }

  lemma IdleDb(w: World, id: Id, c: Choice)
    requires id in w.workers && w.workers[id].phase.Sending?
    ensures DbAfter(w.db, w.queueConfigured, w.workers[id], c) == w.db
  {
  }

  // ---- every step ------------------------------------------------------------------------

  ghost predicate Extends(remote: map<Ref, seq<Sha>>, remote': map<Ref, seq<Sha>>) {
    forall ref :: HeadsOf(remote, ref) <= HeadsOf(remote', ref)
  }

  lemma PhasePush(w: World, remote': map<Ref, seq<Sha>>, r: Id, phase: Phase)
    requires PhaseSound(w.db, w.remote, w.links, w.begun, r, phase) && Extends(w.remote, remote')
    ensures PhaseSound(w.db, remote', w.links, w.begun, r, phase)
  {
    hide HeadsOf, Started, TaskSound, Dispatchable;
    if Started(w.db.runs, w.begun, r) { PushedStart(w, remote', r); }
  }

  lemma PushedStart(w: World, remote': map<Ref, seq<Sha>>, r: Id)
    requires Started(w.db.runs, w.begun, r) && Extends(w.remote, remote')
    ensures r in w.db.runs && HeadsOf(w.remote, w.db.runs[r].ref) <= HeadsOf(remote', w.db.runs[r].ref)
  {
  }

  lemma VersionsPush(w: World, remote': map<Ref, seq<Sha>>)
    requires Extends(w.remote, remote')
    ensures AnnouncedSound(w.db.events, w.payloads, w.remote, w.announced) ==>
      AnnouncedSound(w.db.events, w.payloads, remote', w.announced)
    ensures BegunSound(w.db.runs, w.remote, w.begun, w.links, w.announced) ==>
      BegunSound(w.db.runs, remote', w.begun, w.links, w.announced)
    ensures BuiltSound(w.db.runs, w.remote, w.begun, w.built) ==> BuiltSound(w.db.runs, remote', w.begun, w.built)
  {
    hide HeadsOf, RequestedRef;
  }

  lemma PushSound(w: World, ref: Ref, head: Sha)
    requires Sound(w)
    ensures Sound(w.(remote := w.remote[ref := Heads(w, ref) + [head]]))
  {
    hide Inv, LinksSound, LinksCover, MessagesSound, PayloadsSound, TaskSound, PhaseSound, AnnouncedSound, BegunSound,
      BuiltSound, Extends;
    var remote' := w.remote[ref := Heads(w, ref) + [head]];
    PushExtends(w, ref, head);
    VersionsPush(w, remote');
    forall k | k in w.workers
      ensures PhaseSound(w.db, remote', w.links, w.begun, w.workers[k].task.run, w.workers[k].phase)
    {
      PhasePush(w, remote', w.workers[k].task.run, w.workers[k].phase);
    }
  }

  lemma PushExtends(w: World, ref: Ref, head: Sha)
    ensures Extends(w.remote, w.remote[ref := Heads(w, ref) + [head]])
  {
  }

  lemma TakeSound(w: World, k: Id, task: Task)
    requires Sound(w) && k !in w.workers && task in w.tasks
    ensures Sound(w.(workers := w.workers[k := Worker(task, Phase.Received)]))
  {
    hide Inv, LinksSound, LinksCover, AnnouncedSound, BegunSound, BuiltSound, PayloadsSound, PhaseSound, Dispatchable;
    assert PhaseSound(w.db, w.remote, w.links, w.begun, task.run, Phase.Received) by { PhaseFree(w, task.run); }
  }

  lemma PhaseFree(w: World, r: Id)
    ensures PhaseSound(w.db, w.remote, w.links, w.begun, r, Phase.Received)
  {
  }

  lemma AddTask(w: World, t: Task)
    requires Sound(w) && TaskSound(w.db, w.links, t)
    ensures Sound(w.(tasks := w.tasks + {t}))
  {
    hide Inv, LinksSound, LinksCover, AnnouncedSound, BegunSound, BuiltSound, PayloadsSound, WorkersSound, Dispatchable;
  }

  lemma ClaimSound(w: World, e: Id, r: Id, at: Time)
    requires Sound(w) && Enabled(w, ClaimDispatch(e, r, at))
    ensures Sound(Next(w, ClaimDispatch(e, r, at)))
  {
    hide Sound, Inv, Claim, Links, RunsForward, EventsKept, SnapshotsKept, LinkStep, TriggerStep, StatusStep, Evolves,
      Dispatchable;
    InvOf(w);
    if Claimable(w.db, r, at - RETRY_AFTER) {
      var db := Claim(w.db, r, at, at - RETRY_AFTER);
      ClaimKeeps(w.db, r, at, at - RETRY_AFTER);
      ClaimEvolves(w.db, r, at, at - RETRY_AFTER);
      ClaimEvents(w.db, r, at, at - RETRY_AFTER);
      Carry(w, db, {});
      ClockFree(Commit(w, db), at);
      DispatchOf(w, e, r);
      DispatchableKept(w.db, db, {}, {}, r);
      AddTask(Commit(w, db).(clock := at), WebhookTask(e, r));
    } else {
      ClockFree(w, at);
    }
  }

  lemma DispatchOf(w: World, e: Id, r: Id)
    requires Sound(w) && (e, r) in w.dispatches
    ensures (e, r) in w.links && Dispatchable(w.db, r)
    ensures e in w.db.events && r in w.db.runs ==> w.db.events[e].delivery.conn == w.db.runs[r].ref.conn
  {
    hide Inv, AnnouncedSound, BegunSound, BuiltSound, WorkersSound, LinksCover, Dispatchable;
    if e in w.db.events && r in w.db.runs {
      assert PayloadOf(w.db.events, w.payloads, e);
      assert AsksFor(w.db.events, w.payloads, e, w.db.runs[r].ref);
    }
  }

  lemma ClaimEvents(s: State, r: Id, at: Time, stale: Time)
    ensures Claim(s, r, at, stale).events == s.events
  {
  }

  lemma EnqueueFailureSound(w: World, e: Id, r: Id, at: Time)
    requires Sound(w) && Enabled(w, EnqueueFailure(e, r, at))
    ensures Sound(Next(w, EnqueueFailure(e, r, at)))
  {
    hide Sound, Inv, EnqueueFailed, Links, Evolves, Dispatchable;
    InvOf(w);
    DispatchOf(w, e, r);
    var db := EnqueueFailed(w.db, e, r);
    EnqueueFailedKeeps(w.db, e, r);
    EnqueueFailedEvolves(w.db, e, r);
    EnqueueFailedEvents(w.db, e, r);
    Carry(w, db, {(e, r)});
    ClockFree(Commit(w, db), at);
  }

  lemma EnqueueFailedEvents(s: State, e: Id, r: Id)
    ensures EnqueueFailed(s, e, r).events.Keys == s.events.Keys
  {
  }

  lemma ManualSound(w: World, ref: Ref, origin: Origin, r: Id, at: Time)
    requires Sound(w) && Enabled(w, RequestManual(ref, origin, r, at))
    ensures Sound(Next(w, RequestManual(ref, origin, r, at)))
  {
    hide Sound, Inv, CreateManual, Links, Evolves, ManualAllowed;
    InvOf(w);
    KeysOf(w.db);
    ClockFree(w, at);
    if ManualAllowed(w.db, ref) {
      var db := CreateManual(w.db, ref, origin, r, at);
      ManualKeeps(w.db, ref, origin, r, at);
      ManualEvolves(w.db, ref, origin, r, at);
      ManualCreated(w.db, ref, origin, r, at);
      Carry(w, db, {});
      ClockFree(Commit(w, db), at);
      AddTask(Commit(w, db).(clock := at), ManualTask(r));
      ManualFree(Commit(w, db).(clock := at, tasks := w.tasks + {ManualTask(r)}), w.manual + {r});
    }
  }

  lemma ManualFree(w: World, manual: set<Id>)
    requires Sound(w)
    ensures Sound(w.(manual := manual))
  {
  }

  lemma ManualCreated(s: State, ref: Ref, origin: Origin, r: Id, at: Time)
    requires ManualAllowed(s, ref)
    ensures var s' := CreateManual(s, ref, origin, r, at);
      s'.events == s.events && Dispatchable(s', r)
  {
  }

  lemma OtherSound(w: World, st: Step)
    requires Sound(w) && Enabled(w, st) && (st.WithdrawManual? || st.SaveScopeRules?)
    ensures Sound(Next(w, st))
  {
    hide Sound, Inv, CancelManual, SaveScope, Links, Evolves;
    InvOf(w);
    var db := if st.WithdrawManual? then CancelManual(w.db, st.run) else SaveScope(w.db, st.conn, st.newScope);
    if st.WithdrawManual? {
      CancelKeeps(w.db, st.run);
      CancelEvolves(w.db, st.run);
    } else {
      ScopeKeeps(w.db, st.conn, st.newScope);
      ScopeEvolves(w.db, st.conn, st.newScope);
    }
    OtherEvents(w.db, st);
    Carry(w, db, {});
    ClockFree(Commit(w, db), w.clock);
  }

  lemma OtherEvents(s: State, st: Step)
    requires st.WithdrawManual? || st.SaveScopeRules?
    ensures st.WithdrawManual? ==> CancelManual(s, st.run).events == s.events
    ensures st.SaveScopeRules? ==> SaveScope(s, st.conn, st.newScope).events == s.events
  {
  }

  lemma RefuseSound(w: World, key: DeliveryKey, newEvent: Id, at: Time)
    requires Sound(w) && Enabled(w, Refuse(key, newEvent, at))
    ensures Sound(Next(w, Refuse(key, newEvent, at)))
  {
    hide Sound, Inv, Links, Evolves, MarkRejected;
    InvOf(w);
    Unchanged(w.db, {}, {});
    Carry(w, w.db, {});
    ClockFree(Commit(w, w.db), at);
  }

  lemma NextSound(w: World, st: Step)
    requires Sound(w) && Enabled(w, st)
    ensures Sound(Next(w, st))
  {
    hide Sound, AfterDelivery, AfterWork, Commit, Heads;
    match st
    case Push(ref, head) => PushSound(w, ref, head);
    case Deliver(a, version) => CarryDelivery(w, a, version);
    case Refuse(key, newEvent, at) => RefuseSound(w, key, newEvent, at);
    case ClaimDispatch(e, r, at) => ClaimSound(w, e, r, at);
    case EnqueueFailure(e, r, at) => EnqueueFailureSound(w, e, r, at);
    case RequestManual(ref, origin, r, at) => ManualSound(w, ref, origin, r, at);
    case WithdrawManual(_) => OtherSound(w, st);
    case SaveScopeRules(_, _) => OtherSound(w, st);
    case Take(k, task) => TakeSound(w, k, task);
    case Work(k, c) => WorkSound(w, k, c);
  }

  /** Every world of every run satisfies the invariant. */
  lemma {:induction false} AlwaysSound(ws: seq<World>, steps: seq<Step>, i: nat)
    requires Execution(ws, steps) && i < |ws|
    ensures Sound(ws[i])
  {
    hide Sound;
    if i == 0 {
      InitiallySound(ws[0]);
    } else {
      AlwaysSound(ws, steps, i - 1);
      NextSound(ws[i - 1], steps[i - 1]);
    }
  }
}
