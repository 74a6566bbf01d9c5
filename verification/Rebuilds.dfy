/** What a build does when the scope changes under it, and that a build nothing interferes with succeeds. */
module Rebuilds {
  import opened Model
  import opened Deciding
  import opened Transactions
  import opened Invariant
  import opened World
  import opened Reachable
  import opened Builds
  import Steps
  import Safety
  import RunHistory
  import Scopes

  // ---- how often a build reads -----------------------------------------------------------

  /** The retries left in a phase of a build that has read so many trees. */
  predicate OnBudget(phase: Phase, trees: nat) {
    match phase
    case Received => trees == 0
    case Building(_, n) => n + trees == 1
    case Starting(n) => n + trees == 1
    case Resolving(n) => n + trees == 1
    case Scoping(n, _, _) => n + trees == 1
    case Reading(n, _, _, _) => n + trees == 1
    case Committing(n, _, _, _) => n + trees == 2
    case EmptyResult(n, _) => n + trees == 2
    case _ => true
  }

  lemma StaysOnBudget(w: World, k: Worker, c: Choice, trees: nat)
    requires OnBudget(k.phase, trees)
    ensures OnBudget(PhaseAfter(w, k, c), if k.phase.Reading? then trees + 1 else trees)
  {
    hide FollowUp, TaskFor, Startable, CommitOutcomeOf, ScopeStillActive, Heads, EnsureScope;
  }

  lemma {:induction false} AlwaysOnBudget(ws: seq<World>, steps: seq<Step>, k: Id, n: nat)
    requires Execution(ws, steps) && n <= |steps|
    ensures if k in ws[n].workers then OnBudget(ws[n].workers[k].phase, Reads(ws, steps, k, n))
            else Reads(ws, steps, k, n) == 0
  {
    hide Enabled, Next, PhaseAfter, OnBudget;
    if n == 0 {
    } else {
      AlwaysOnBudget(ws, steps, k, n - 1);
      var w, st := ws[n - 1], steps[n - 1];
      if WorksFor(st, k) {
        WorkedPhase(w, st, k);
        StaysOnBudget(w, w.workers[k], st.choice, Reads(ws, steps, k, n - 1));
      } else if k in w.workers {
        WorkerStill(w, st, k);
      } else {
        NewWorker(w, st, k);
        NewOnBudget();
      }
    }
  }

  lemma NewOnBudget()
    ensures OnBudget(Phase.Received, 0)
  {
  }

  // ---- a changed scope -------------------------------------------------------------------

  /** Worker `k` ends a build, at its commit or at an empty result, that was read under `scope` while another
      version, or none, is active. */
  predicate FindsScopeChanged(w: World, st: Step, k: Id) {
    && WorksFor(st, k) && k in w.workers && !st.choice.outcome.Error?
    && (w.workers[k].phase.Committing? || w.workers[k].phase.EmptyResult?)
    && w.workers[k].task.run in w.db.runs
    && !ActiveIs(w, w.db.runs[w.workers[k].task.run].ref.conn, w.workers[k].phase.scope)
  }

  predicate ActiveIs(w: World, conn: Id, scope: Id) { conn in w.db.scopes && w.db.scopes[conn] == scope }

  lemma ChangedPhase(w: World, st: Step, k: Id, trees: nat)
    requires Enabled(w, st) && FindsScopeChanged(w, st, k) && OnBudget(w.workers[k].phase, trees) && 1 <= trees <= 2
    ensures trees == 1 ==> Next(w, st).workers[k].phase == Building(true, 0)
    ensures trees == 2 && w.workers[k].phase.Committing? ==>
      Next(w, st).workers[k].phase == FailingBuild(MirrorSyncFailed)
    ensures trees == 2 && w.workers[k].phase.EmptyResult? ==> Next(w, st).workers[k].phase == Failing
    ensures Next(w, st).db == w.db && Next(w, st).workers[k].task == w.workers[k].task
  {
    hide Next, Heads, FollowUp, TaskFor;
    WorkedPhase(w, st, k);
    RunHistory.AfterWorkDb(w, k, st.choice);
    WorkDb(w, st);
  }

  lemma WorkDb(w: World, st: Step)
    requires Enabled(w, st) && st.Work?
    ensures Next(w, st).db == AfterWork(w, st.worker, st.choice).db
  {
    hide AfterWork;
  }

  /** A build gives up for a changed scope exactly when it has read two trees: after its first read it starts over,
      and either way it leaves the database alone. */
  lemma ScopeChangeRetries(ws: seq<World>, steps: seq<Step>, i: nat, k: Id)
    requires Execution(ws, steps) && i < |steps| && FindsScopeChanged(ws[i], steps[i], k)
    ensures ws[i + 1].db == ws[i].db && k in ws[i + 1].workers
    ensures Reads(ws, steps, k, i) == 1 || Reads(ws, steps, k, i) == 2
    ensures Reads(ws, steps, k, i) == 1 <==> ws[i + 1].workers[k].phase == Building(true, 0)
    ensures Reads(ws, steps, k, i) == 2 <==> !ws[i + 1].workers[k].phase.Building?
    ensures Reads(ws, steps, k, i) == 2 && ws[i].workers[k].phase.Committing? ==>
      ws[i + 1].workers[k].phase == FailingBuild(MirrorSyncFailed)
    ensures Reads(ws, steps, k, i) == 2 && ws[i].workers[k].phase.EmptyResult? ==> ws[i + 1].workers[k].phase == Failing
  {
    hide Next, Reads;
    AlwaysOnBudget(ws, steps, k, i);
    BudgetBounds(ws, steps, k, i);
    ChangedPhase(ws[i], steps[i], k, Reads(ws, steps, k, i));
    WorkedPhase(ws[i], steps[i], k);
  }

  lemma BudgetBounds(ws: seq<World>, steps: seq<Step>, k: Id, i: nat)
    requires Execution(ws, steps) && i < |steps| && FindsScopeChanged(ws[i], steps[i], k)
    ensures 1 <= Reads(ws, steps, k, i) <= 2
  {
    hide Next, Reads, Enabled;
    AlwaysOnBudget(ws, steps, k, i);
    WorkersEnd(ws, steps, k, i);
    EndedRead(ws, steps, k, i);
  }

  lemma {:induction false} EndedRead(ws: seq<World>, steps: seq<Step>, k: Id, i: nat)
    requires Execution(ws, steps) && i < |ws| && k in ws[i].workers
    requires ws[i].workers[k].phase.Committing? || ws[i].workers[k].phase.EmptyResult?
    ensures Reads(ws, steps, k, i) > 0
  {
    hide Next, Enabled, PhaseAfter;
    assert i > 0;
    var w, st := ws[i - 1], steps[i - 1];
    if WorksFor(st, k) {
      WorkedPhase(w, st, k);
      OnlyAfterReading(w, w.workers[k], st.choice);
    } else if k in w.workers {
      WorkerStill(w, st, k);
      EndedRead(ws, steps, k, i - 1);
    } else {
      NewWorker(w, st, k);
      assert false;
    }
  }

  lemma OnlyAfterReading(w: World, k: Worker, c: Choice)
    requires PhaseAfter(w, k, c).Committing? || PhaseAfter(w, k, c).EmptyResult?
    ensures k.phase.Reading?
  {
    hide FollowUp, TaskFor, Startable, CommitOutcomeOf, ScopeStillActive, Heads, EnsureScope;
  }

  // ---- the second attempt ----------------------------------------------------------------

  /** Where the second attempt of a build stands while `scope` is its connection's active version. */
  predicate SecondAttempt(phase: Phase, scope: Option<Id>) {
    match phase
    case Received => false
    case Building(resume, n) => resume && n == 0
    case Starting(n) => n == 0
    case Resolving(n) => n == 0
    case Scoping(n, _, _) => n == 0
    case Reading(n, _, _, x) => n == 0 && scope == Some(x)
    case Committing(n, _, _, x) => n == 0 && scope == Some(x)
    case EmptyResult(n, x) => n == 0 && scope == Some(x)
    case _ => true
  }

  function ActiveScope(w: World, conn: Id): Option<Id> { if conn in w.db.scopes then Some(w.db.scopes[conn]) else None }

  lemma SecondGoesOn(w: World, k: Worker, c: Choice, conn: Id, scopes': map<Id, Id>)
    requires SecondAttempt(k.phase, if conn in w.db.scopes then Some(w.db.scopes[conn]) else None)
    requires ConnOf(w.db, k.task.run) == conn
    requires conn in w.db.scopes ==> conn in scopes' && scopes'[conn] == w.db.scopes[conn]
    requires k.phase.Scoping? && !c.outcome.Error? ==> scopes' == EnsureScope(w.db, conn, c.newId).scopes
    requires k.phase.Committing? ==> k.task.run in w.db.runs
    ensures SecondAttempt(PhaseAfter(w, k, c), if conn in scopes' then Some(scopes'[conn]) else None)
  {
    hide FollowUp, TaskFor, Startable, Heads;
  }

  lemma PhaseOf(w: World, k: Id)
    requires Sound(w) && k in w.workers
    ensures PhaseSound(w.db, w.remote, w.links, w.begun, w.workers[k].task.run, w.workers[k].phase)
  {
    hide Inv, LinksSound, LinksCover, MessagesSound, AnnouncedSound, BegunSound, BuiltSound, PayloadsSound;
  }

  lemma SecondWaits(phase: Phase, scope: Option<Id>, scope': Option<Id>)
    requires SecondAttempt(phase, scope) && (scope.Some? ==> scope' == scope)
    ensures SecondAttempt(phase, scope')
  {
  }

  lemma ScopingDb(w: World, st: Step, k: Id)
    requires Enabled(w, st) && WorksFor(st, k) && k in w.workers
    requires w.workers[k].phase.Scoping? && !st.choice.outcome.Error?
    ensures Next(w, st).db == EnsureScope(w.db, ConnOf(w.db, w.workers[k].task.run), st.choice.newId)
  {
    hide AfterWork, EnsureScope;
    RunHistory.AfterWorkDb(w, k, st.choice);
  }

  lemma SecondStep(w: World, st: Step, k: Id, conn: Id)
    requires Sound(w) && Enabled(w, st) && k in w.workers && !Scopes.Saves(st, conn)
    requires w.workers[k].task.run in w.db.runs && w.db.runs[w.workers[k].task.run].ref.conn == conn
    requires SecondAttempt(w.workers[k].phase, ActiveScope(w, conn))
    ensures k in Next(w, st).workers && Next(w, st).workers[k].task == w.workers[k].task
    ensures SecondAttempt(Next(w, st).workers[k].phase, ActiveScope(Next(w, st), conn))
  {
    hide Sound, Next, PhaseAfter, Enabled, SecondAttempt, EnsureScope;
    if conn in w.db.scopes { Scopes.NextKeepsScope(w, st, conn); }
    if WorksFor(st, k) {
      WorkedPhase(w, st, k);
      if w.workers[k].phase.Scoping? && !st.choice.outcome.Error? { ScopingDb(w, st, k); }
      SecondGoesOn(w, w.workers[k], st.choice, conn, Next(w, st).db.scopes);
    } else {
      WorkerStill(w, st, k);
      SecondWaits(w.workers[k].phase, ActiveScope(w, conn), ActiveScope(Next(w, st), conn));
    }
  }

  lemma StartedStays(ws: seq<World>, steps: seq<Step>, i: nat, j: nat, r: Id)
    requires Execution(ws, steps) && i <= j < |ws|
    requires r in ws[i].db.runs && StatusRank(ws[i].db.runs[r].status) >= 2
    ensures r in ws[j].db.runs && ws[j].db.runs[r].ref == ws[i].db.runs[r].ref
    ensures StatusRank(ws[j].db.runs[r].status) >= 2
  {
    hide Execution, Inv, Sound;
    RunHistory.StatusOnlyForward(ws, steps, i, j);
    Safety.AlwaysSound(ws, steps, i);
    Steps.InvOf(ws[i]);
    KeysOf(ws[i].db);
  }

  lemma ChangedStarted(w: World, st: Step, k: Id)
    requires Sound(w) && FindsScopeChanged(w, st, k)
    ensures StatusRank(w.db.runs[w.workers[k].task.run].status) >= 2
  {
    hide Sound;
    PhaseOf(w, k);
  }

  /** After a scope change at its first attempt, and until another version is saved, a build reads under, and ends
      under, the version that is active. */
  lemma {:induction false} SecondReadsActive(ws: seq<World>, steps: seq<Step>, i: nat, j: nat, k: Id)
    requires Execution(ws, steps) && i < j < |ws| && FindsScopeChanged(ws[i], steps[i], k)
    requires Reads(ws, steps, k, i) == 1
    requires forall m :: i < m < j ==>
      !(steps[m].SaveScopeRules? && steps[m].conn == ws[i].db.runs[ws[i].workers[k].task.run].ref.conn)
    ensures k in ws[j].workers && ws[j].workers[k].task == ws[i].workers[k].task
    ensures SecondAttempt(ws[j].workers[k].phase, ActiveScope(ws[j], ws[i].db.runs[ws[i].workers[k].task.run].ref.conn))
    decreases j
  {
    hide Sound, Next, Reads, Enabled, FindsScopeChanged;
    var n := j - 1;
    Safety.AlwaysSound(ws, steps, i);
    ScopeChangeRetries(ws, steps, i, k);
    ChangedTask(ws[i], steps[i], k);
    if n > i {
      SecondReadsActive(ws, steps, i, n, k);
      ChangedStarted(ws[i], steps[i], k);
      StartedStays(ws, steps, i, n, ws[i].workers[k].task.run);
      Safety.AlwaysSound(ws, steps, n);
      SecondStep(ws[n], steps[n], k, ws[i].db.runs[ws[i].workers[k].task.run].ref.conn);
    }
  }

  lemma ChangedTask(w: World, st: Step, k: Id)
    requires Enabled(w, st) && FindsScopeChanged(w, st, k)
    ensures k in w.workers && w.workers[k].task.run in w.db.runs && k in Next(w, st).workers
    ensures Next(w, st).workers[k].task == w.workers[k].task
  {
    hide Next, Enabled;
    WorkedPhase(w, st, k);
  }

  /** So its second commit, with no further save in between, does not find the scope changed again: it commits, or
      finds the snapshot another worker has committed for the run. */
  lemma SecondCommitEnds(ws: seq<World>, steps: seq<Step>, i: nat, j: nat, k: Id)
    requires Execution(ws, steps) && i < j < |steps| && FindsScopeChanged(ws[i], steps[i], k)
    requires Reads(ws, steps, k, i) == 1
    requires forall m :: i < m < j ==>
      !(steps[m].SaveScopeRules? && steps[m].conn == ws[i].db.runs[ws[i].workers[k].task.run].ref.conn)
    requires WorksFor(steps[j], k) && !steps[j].choice.outcome.Error? && ws[j].workers[k].phase.Committing?
    ensures var (r, w') := (ws[i].workers[k].task.run, ws[j + 1]);
      && !FindsScopeChanged(ws[j], steps[j], k)
      && k in w'.workers && r in w'.db.runs && w'.db.runs[r].status.Succeeded?
      && if w'.workers[k].phase.LoadingExisting? then w'.db == ws[j].db
         else w'.workers[k].phase == Built(steps[j].choice.newId) && steps[j].choice.newId in w'.db.snapshots
              && w'.db.snapshots[steps[j].choice.newId]
                 == Snapshot(r, ws[j].workers[k].phase.scope, ws[j].workers[k].phase.commit)
              && w'.db.runs[r].resolved == Some(ws[j].workers[k].phase.commit)
  {
    hide Sound, Next, Reads, Enabled, SecondAttempt;
    Safety.AlwaysSound(ws, steps, i);
    Safety.AlwaysSound(ws, steps, j);
    SecondReadsActive(ws, steps, i, j, k);
    ChangedStarted(ws[i], steps[i], k);
    StartedStays(ws, steps, i, j, ws[i].workers[k].task.run);
    UnderActive(ws[j], k, ws[i].db.runs[ws[i].workers[k].task.run].ref.conn);
    CommitUnderActive(ws[j], steps[j], k);
  }

  lemma UnderActive(w: World, k: Id, conn: Id)
    requires k in w.workers && w.workers[k].phase.Committing?
    requires SecondAttempt(w.workers[k].phase, ActiveScope(w, conn))
    ensures ActiveIs(w, conn, w.workers[k].phase.scope)
  {
  }

  lemma CommitUnderActive(w: World, st: Step, k: Id)
    requires Sound(w) && Enabled(w, st) && WorksFor(st, k) && k in w.workers && w.workers[k].phase.Committing?
    requires !st.choice.outcome.Error? && w.workers[k].task.run in w.db.runs
    requires ActiveIs(w, w.db.runs[w.workers[k].task.run].ref.conn, w.workers[k].phase.scope)
    ensures var (r, w', phase) := (w.workers[k].task.run, Next(w, st), w.workers[k].phase);
      && k in w'.workers && r in w'.db.runs && w'.db.runs[r].status.Succeeded?
      && (HasSnapshot(w.db.snapshots, r) ==> w'.workers[k].phase.LoadingExisting? && w'.db == w.db)
      && (!HasSnapshot(w.db.snapshots, r) ==>
            && w'.workers[k].phase == Built(st.choice.newId) && st.choice.newId in w'.db.snapshots
            && w'.db.snapshots[st.choice.newId] == Snapshot(r, phase.scope, phase.commit)
            && w'.db.runs[r].resolved == Some(phase.commit))
  {
    hide Sound, Next, Inv, PhaseAfter, DbAfter, HasSnapshot, CanWork;
    var r := w.workers[k].task.run;
    WorkedPhase(w, st, k);
    WorkDb(w, st);
    RunHistory.AfterWorkDb(w, k, st.choice);
    Steps.InvOf(w);
    CommitsBuild(w, w.workers[k], st.choice);
    if HasSnapshot(w.db.snapshots, r) { SnapshotSucceeded(w.db, r); }
  }

  lemma CommitsBuild(w: World, k: Worker, c: Choice)
    requires k.phase.Committing? && !c.outcome.Error? && k.task.run in w.db.runs
    requires ActiveIs(w, w.db.runs[k.task.run].ref.conn, k.phase.scope)
    ensures var (r, s', phase') := (k.task.run, DbAfter(w.db, w.queueConfigured, k, c), PhaseAfter(w, k, c));
      if HasSnapshot(w.db.snapshots, r) then phase' == LoadingExisting && s' == w.db
      else
        && phase' == Built(c.newId) && r in s'.runs && s'.runs[r].status.Succeeded?
        && s'.runs[r].resolved == Some(k.phase.commit)
        && c.newId in s'.snapshots && s'.snapshots[c.newId] == Snapshot(r, k.phase.scope, k.phase.commit)
  {
    hide FollowUp, TaskFor, Startable, Heads, HasSnapshot;
  }

  lemma SnapshotSucceeded(s: State, r: Id)
    requires Inv(s) && HasSnapshot(s.snapshots, r)
    ensures r in s.runs && s.runs[r].status.Succeeded?
  {
  }
}
