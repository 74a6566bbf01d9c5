/** A build that nothing interferes with succeeds, from its message or from a second attempt. */
module Completion {
  import opened Model
  import opened Deciding
  import opened Transactions
  import opened Invariant
  import opened World
  import opened Reachable
  import opened Builds
  import opened Rebuilds
  import Steps
  import Safety
  import RunHistory
  import Leases
  import Released
  import Scopes

  /** What may stop worker `k` from building `r`: another worker on the same run, a failed send of it, a cancel, or a
      scope save for its connection. */
  predicate Interferes(w: World, st: Step, k: Id, r: Id) {
    match st
    case WithdrawManual(q) => q == r
    case SaveScopeRules(conn, _) => r in w.db.runs && w.db.runs[r].ref.conn == conn
    case Work(l, _) =>
      && l != k && l in w.workers
      && (w.workers[l].task.run == r || (w.workers[l].phase.DispatchFailing? && w.workers[l].phase.next == r))
    case _ => false
  }

  // ---- steps of others -------------------------------------------------------------------

  predicate SameStatus(s: State, s': State, r: Id) {
    r in s.runs && r in s'.runs && s'.runs[r].status == s.runs[r].status && s'.runs[r].ref == s.runs[r].ref
  }

  lemma RouteStatus(w: World, st: Step, k: Id, r: Id)
    requires Sound(w) && Enabled(w, st) && !st.Deliver? && !st.Work? && r in w.db.runs && !Interferes(w, st, k, r)
    ensures SameStatus(w.db, Next(w, st).db, r)
  {
    hide Sound, Inv, Next, ManualAllowed;
    Steps.InvOf(w);
    KeysOf(w.db);
    RunHistory.RouteDb(w, st);
  }

  lemma FollowUpStatus(s: State, q: Id, e: Option<Id>, t: FollowUpClock, r: Id)
    requires r in s.runs && IsActive(s.runs[r].status)
    ensures SameStatus(s, FollowUp(s, q, e, t).0, r)
  {
    hide FollowUp;
    Released.FollowUpActive(s, q, e, t, r);
  }

  lemma OtherRunStatus(s: State, q: Id, code: FailureCode, at: Time, scope: Id, commit: Sha, x: Id, r: Id)
    requires r in s.runs && q != r
    ensures SameStatus(s, MarkRunning(s, q, at), r) && SameStatus(s, MarkFailed(s, q, code, at), r)
    ensures SameStatus(s, CommitSnapshot(s, q, scope, commit, x, at), r) && SameStatus(s, s, r)
    ensures forall conn :: SameStatus(s, EnsureScope(s, conn, x), r)
  {
    hide CommitOutcomeOf;
  }

  lemma FailureStatus(s: State, e: Id, q: Id, at: Time, r: Id)
    requires r in s.runs && q != r
    ensures SameStatus(s, FailWebhook(s, e, q, at), r) && SameStatus(s, DispatchFailed(s, q, at), r)
  {
    hide FailWebhook, DispatchFailed;
    Released.FailWebhookRuns(s, e, q, at);
    Leases.DispatchFailedRuns(s, q, at);
  }

  lemma CompleteStatus(s: State, e: Id, q: Id, x: Id, r: Id)
    requires r in s.runs
    ensures SameStatus(s, CompleteEvent(s, e, q, x), r)
  {
  }

  lemma WorkStatus(w: World, l: Id, c: Choice, k: Id, r: Id)
    requires CanWork(w, l, c) && l != k && !Interferes(w, Work(l, c), k, r)
    requires r in w.db.runs && IsActive(w.db.runs[r].status)
    ensures SameStatus(w.db, DbAfter(w.db, w.queueConfigured, w.workers[l], c), r)
  {
    hide MarkRunning, MarkFailed, CommitSnapshot, EnsureScope, FollowUp, FailWebhook, DispatchFailed, CompleteEvent,
      SameStatus;
    var p := w.workers[l];
    var q, now := p.task.run, c.clock.check;
    OtherRunStatus(w.db, q, c.code, now, 0, "", c.newId, r);
    match p.phase
    case EmptyResult(_, _) => OtherRunStatus(w.db, q, NoIncludedFiles, now, 0, "", 0, r);
    case FailingBuild(code) => OtherRunStatus(w.db, q, code, now, 0, "", 0, r);
    case Committing(_, _, commit, scope) => OtherRunStatus(w.db, q, c.code, now, scope, commit, c.newId, r);
    case Failing => FailureStatus(w.db, if p.task.WebhookTask? then p.task.event else 0, q, now, r);
    case Built(x) => CompleteStatus(w.db, if p.task.WebhookTask? then p.task.event else 0, q, x, r);
    case DispatchFailing(next) => FailureStatus(w.db, 0, next, now, r);
    case FollowingUp => FollowUpStatus(w.db, q, TaskEvent(p.task), c.clock, r);
    case _ =>
  }

  lemma OthersKeepStatus(w: World, st: Step, k: Id, r: Id)
    requires Sound(w) && Enabled(w, st) && !WorksFor(st, k) && !Interferes(w, st, k, r)
    requires r in w.db.runs && IsActive(w.db.runs[r].status)
    ensures SameStatus(w.db, Next(w, st).db, r)
  {
    hide Sound, Inv, AfterDelivery, AfterWork, Process, DbAfter, Interferes;
    Steps.InvOf(w);
    KeysOf(w.db);
    if st.Deliver? {
      RunHistory.AfterDeliveryDb(w, st.arrival, st.version);
      Released.ProcessStatus(w.db, st.arrival, r);
    } else if st.Work? {
      RunHistory.AfterWorkDb(w, st.worker, st.choice);
      WorkStatus(w, st.worker, st.choice, k, r);
    } else {
      RouteStatus(w, st, k, r);
    }
  }

  // ---- the course of a build -------------------------------------------------------------

  predicate RunIs(w: World, r: Id, status: RunStatus) { r in w.db.runs && w.db.runs[r].status == status }

  predicate UnderScope(w: World, r: Id, scope: Id) { r in w.db.runs && ActiveIs(w, w.db.runs[r].ref.conn, scope) }

  /** Worker `k` is on its way to a snapshot of `r`. */
  ghost predicate OnCourse(w: World, k: Id, r: Id) {
    && k in w.workers && w.workers[k].task.run == r && r in w.db.runs && |Heads(w, w.db.runs[r].ref)| > 0
    && match w.workers[k].phase
       case Received => RunIs(w, r, Pending)
       case Building(resume, _) => RunIs(w, r, if resume then Running else Pending)
       case Starting(_) => RunIs(w, r, Pending)
       case Resolving(_) => RunIs(w, r, Running)
       case Scoping(_, _, _) => RunIs(w, r, Running)
       case Reading(_, _, _, x) => RunIs(w, r, Running) && UnderScope(w, r, x)
       case Committing(_, _, _, x) => RunIs(w, r, Running) && UnderScope(w, r, x)
       case Built(x) => RunIs(w, r, Succeeded) && x in w.db.snapshots && w.db.snapshots[x].run == r
       case _ => false
  }

  /** The transactions left to it. */
  function ToGo(phase: Phase): nat {
    match phase
    case Received => 7
    case Building(resume, _) => if resume then 5 else 6
    case Starting(_) => 5
    case Resolving(_) => 4
    case Scoping(_, _, _) => 3
    case Reading(_, _, _, _) => 2
    case Committing(_, _, _, _) => 1
    case _ => 0
  }

  lemma WorkRemote(w: World, k: Id, c: Choice)
    requires k in w.workers
    ensures AfterWork(w, k, c).remote == w.remote
  {
    hide DbAfter, PhaseAfter, CommitOutcomeOf, Startable, Links;
  }

  lemma DeliveryRemote(w: World, a: Arrival, version: Option<nat>)
    ensures AfterDelivery(w, a, version).remote == w.remote
  {
    hide Process, Links, Known;
    assert Delivered(w, a).remote == w.remote && Announced(w, a, version).remote == w.remote;
  }

  /** The heads of a ref are only ever added to. */
  lemma HeadsGrow(w: World, st: Step, ref: Ref)
    requires Enabled(w, st)
    ensures Heads(w, ref) <= Heads(Next(w, st), ref)
  {
    hide AfterDelivery, AfterWork, Links, Claim, EnqueueFailed, CreateManual, CancelManual, SaveScope, Claimable,
      ManualAllowed;
    if st.Deliver? { DeliveryRemote(w, st.arrival, st.version); }
    if st.Work? { WorkRemote(w, st.worker, st.choice); }
  }

  // ---- one turn --------------------------------------------------------------------------

  /** The turns up to the scope leave the run where the course needs it, */
  lemma EarlyTurn(w: World, k: Worker, c: Choice)
    requires c.outcome.Ok? && k.task.run in w.db.runs && |Heads(w, w.db.runs[k.task.run].ref)| > 0
    ensures var (r, s', phase') := (k.task.run, DbAfter(w.db, w.queueConfigured, k, c), PhaseAfter(w, k, c));
      && (k.phase.Received? && RunIs(w, r, Pending) ==> phase' == Building(false, 1) && s' == w.db)
      && (k.phase.Building? && RunIs(w, r, if k.phase.resume then Running else Pending) ==>
            phase' == (if k.phase.resume then Resolving(k.phase.retries) else Starting(k.phase.retries)) && s' == w.db)
      && (k.phase.Starting? && RunIs(w, r, Pending) ==>
            phase' == Resolving(k.phase.retries) && r in s'.runs && s'.runs[r].status == Running
            && s'.runs[r].ref == w.db.runs[r].ref)
      && (k.phase.Resolving? ==> phase'.Scoping? && s' == w.db)
  {
    hide FollowUp, TaskFor, CommitOutcomeOf, ScopeStillActive, EnsureScope;
  }

  /** the scope's turn takes the active version, and the last two read and commit under it. */
  lemma LateTurn(w: World, k: Worker, c: Choice)
    requires c.outcome.Ok? && k.task.run in w.db.runs
    ensures var (r, s', phase') := (k.task.run, DbAfter(w.db, w.queueConfigured, k, c), PhaseAfter(w, k, c));
      && (k.phase.Scoping? ==>
            && phase'.Reading? && s'.runs == w.db.runs
            && w.db.runs[r].ref.conn in s'.scopes && s'.scopes[w.db.runs[r].ref.conn] == phase'.scope)
      && (k.phase.Reading? ==> phase'.Committing? && phase'.scope == k.phase.scope && s' == w.db)
  {
    hide FollowUp, TaskFor, CommitOutcomeOf, ScopeStillActive, Heads;
  }

  lemma NoSnapshotYet(w: World, r: Id)
    requires Sound(w) && RunIs(w, r, Running)
    ensures !HasSnapshot(w.db.snapshots, r)
  {
    hide Sound;
    Steps.InvOf(w);
    if HasSnapshot(w.db.snapshots, r) { SnapshotSucceeded(w.db, r); }
  }

  lemma OwnTurn(w: World, st: Step, k: Id, r: Id)
    requires Sound(w) && Enabled(w, st) && WorksFor(st, k) && st.choice.outcome.Ok? && OnCourse(w, k, r)
    requires !w.workers[k].phase.Built?
    ensures OnCourse(Next(w, st), k, r) && ToGo(Next(w, st).workers[k].phase) == ToGo(w.workers[k].phase) - 1
  {
    hide Sound, Next, PhaseAfter, DbAfter, Heads, CanWork, HasSnapshot;
    var p := w.workers[k];
    WorkedPhase(w, st, k);
    WorkDb(w, st);
    RunHistory.AfterWorkDb(w, k, st.choice);
    HeadsGrow(w, st, w.db.runs[r].ref);
    EarlyTurn(w, p, st.choice);
    LateTurn(w, p, st.choice);
    if p.phase.Committing? {
      NoSnapshotYet(w, r);
      CommitsBuild(w, p, st.choice);
      CommittedRef(w, st, k);
    }
  }

  lemma CommittedRef(w: World, st: Step, k: Id)
    requires Sound(w) && Enabled(w, st) && k in w.workers && w.workers[k].task.run in w.db.runs
    requires w.workers[k].task.run in Next(w, st).db.runs
    ensures Next(w, st).db.runs[w.workers[k].task.run].ref == w.db.runs[w.workers[k].task.run].ref
  {
    hide Sound, Enabled, Next;
    Released.SameRef(w, st, w.workers[k].task.run);
  }

  lemma OthersTurn(w: World, st: Step, k: Id, r: Id)
    requires Sound(w) && Enabled(w, st) && !WorksFor(st, k) && !Interferes(w, st, k, r) && OnCourse(w, k, r)
    ensures OnCourse(Next(w, st), k, r) && Next(w, st).workers[k] == w.workers[k]
  {
    hide Sound, Enabled, Next, Heads;
    WorkerStill(w, st, k);
    HeadsGrow(w, st, w.db.runs[r].ref);
    if w.workers[k].phase.Built? {
      SucceededStays(w, st, r);
      NextKeepsSnapshots(w, st);
    } else {
      OthersKeepStatus(w, st, k, r);
      if w.db.runs[r].ref.conn in w.db.scopes {
        Scopes.NextKeepsScope(w, st, w.db.runs[r].ref.conn);
      }
    }
  }

  lemma SucceededStays(w: World, st: Step, r: Id)
    requires Sound(w) && Enabled(w, st) && RunIs(w, r, Succeeded)
    ensures RunIs(Next(w, st), r, Succeeded) && Next(w, st).db.runs[r].ref == w.db.runs[r].ref
  {
    hide Sound, Inv, Enabled, Next;
    RunHistory.NextEvolves(w, st);
  }

  // ---- the whole build -------------------------------------------------------------------

  /** Between `i` and `j` nothing interferes with worker `k`, and none of its own turns raises or reads an empty tree. */
  ghost predicate Undisturbed(ws: seq<World>, steps: seq<Step>, i: nat, j: nat, k: Id, r: Id)
    requires i <= j <= |steps| <= |ws|
  {
    forall m :: i <= m < j ==>
      !Interferes(ws[m], steps[m], k, r) && (WorksFor(steps[m], k) ==> steps[m].choice.outcome.Ok?)
  }

  lemma {:induction false} StaysOnCourse(ws: seq<World>, steps: seq<Step>, i: nat, j: nat, k: Id, r: Id)
    requires Execution(ws, steps) && i <= j < |ws| && OnCourse(ws[i], k, r) && Undisturbed(ws, steps, i, j, k, r)
    requires Turns(steps, k, j) - Turns(steps, k, i) <= ToGo(ws[i].workers[k].phase)
    ensures OnCourse(ws[j], k, r)
    ensures ToGo(ws[j].workers[k].phase) == ToGo(ws[i].workers[k].phase) - (Turns(steps, k, j) - Turns(steps, k, i))
    decreases j - i
  {
    hide Sound, Enabled, Next, OnCourse, ToGo, Interferes;
    if i < j {
      var n := j - 1;
      StaysOnCourse(ws, steps, i, n, k, r);
      Safety.AlwaysSound(ws, steps, n);
      CourseWorker(ws[n], k, r);
      if WorksFor(steps[n], k) {
        OwnTurn(ws[n], steps[n], k, r);
      } else {
        OthersTurn(ws[n], steps[n], k, r);
      }
    }
  }

  lemma CourseWorker(w: World, k: Id, r: Id)
    requires OnCourse(w, k, r)
    ensures k in w.workers && (w.workers[k].phase.Built? <==> ToGo(w.workers[k].phase) == 0)
  {
  }

  /** Once a worker has taken the message of a PENDING run whose ref exists, and nothing interferes, its seventh
      transaction ends with the run SUCCEEDED and its one snapshot, whatever else goes on. */
  lemma BuildSucceeds(ws: seq<World>, steps: seq<Step>, i: nat, j: nat, k: Id, r: Id) returns (x: Id)
    requires Execution(ws, steps) && i <= j < |ws| && Undisturbed(ws, steps, i, j, k, r)
    requires k in ws[i].workers && ws[i].workers[k].phase.Received? && ws[i].workers[k].task.run == r
    requires r in ws[i].db.runs && ws[i].db.runs[r].status.Pending? && |Heads(ws[i], ws[i].db.runs[r].ref)| > 0
    requires Turns(steps, k, j) - Turns(steps, k, i) == 7
    ensures HasBuilt(ws[j], k, r, x)
  {
    hide Enabled, Next, Interferes;
    StaysOnCourse(ws, steps, i, j, k, r);
    x := Built(ws, steps, j, k, r);
  }

  /** And a build that found its scope changed at its first attempt succeeds with five transactions more. */
  lemma RetrySucceeds(ws: seq<World>, steps: seq<Step>, i: nat, j: nat, k: Id, r: Id) returns (x: Id)
    requires Execution(ws, steps) && i < j < |ws| && FindsScopeChanged(ws[i], steps[i], k)
    requires Reads(ws, steps, k, i) == 1 && Undisturbed(ws, steps, i + 1, j, k, r)
    requires ws[i].workers[k].task.run == r && ws[i].db.runs[r].status.Running?
    requires |Heads(ws[i], ws[i].db.runs[r].ref)| > 0
    requires Turns(steps, k, j) - Turns(steps, k, i + 1) == 5
    ensures HasBuilt(ws[j], k, r, x)
  {
    hide Enabled, Next, Interferes, Reads, FindsScopeChanged;
    ScopeChangeRetries(ws, steps, i, k);
    ChangedTask(ws[i], steps[i], k);
    HeadsGrow(ws[i], steps[i], ws[i].db.runs[r].ref);
    StaysOnCourse(ws, steps, i + 1, j, k, r);
    x := Built(ws, steps, j, k, r);
  }

  /** The worker holds the one snapshot of its SUCCEEDED run, which is of the commit the run resolved. */
  ghost predicate HasBuilt(w: World, k: Id, r: Id, x: Id) {
    && k in w.workers && w.workers[k].phase == Phase.Built(x)
    && r in w.db.runs && w.db.runs[r].status.Succeeded?
    && x in w.db.snapshots && w.db.snapshots[x].run == r && w.db.runs[r].resolved == Some(w.db.snapshots[x].commit)
    && forall y :: y in w.db.snapshots && w.db.snapshots[y].run == r ==> y == x
  }

  lemma Built(ws: seq<World>, steps: seq<Step>, j: nat, k: Id, r: Id) returns (x: Id)
    requires Execution(ws, steps) && j < |ws| && OnCourse(ws[j], k, r) && ToGo(ws[j].workers[k].phase) == 0
    ensures HasBuilt(ws[j], k, r, x)
  {
    hide Execution, Sound, Inv;
    Safety.AlwaysSound(ws, steps, j);
    Steps.InvOf(ws[j]);
    Steps.SnapshotsOf(ws[j].db);
    x := ws[j].workers[k].phase.snapshot;
  }

  /** A webhook message for a run that is RUNNING is dropped, unless the run started more than fifteen minutes ago: then
      the build is taken up again. Neither changes the database. */
  lemma MessageWhileRunning(w: World, st: Step, k: Id)
    requires Enabled(w, st) && WorksFor(st, k) && w.workers[k].phase.Received? && w.workers[k].task.WebhookTask?
    requires !st.choice.outcome.Error? && RunIs(w, w.workers[k].task.run, Running)
    ensures var (age, w') := (st.choice.clock.check - w.db.runs[w.workers[k].task.run].startedAt, Next(w, st));
      && w'.db == w.db && k in w'.workers
      && (age <= 900_000_000 ==> w'.workers[k].phase == Done)
      && (age > 900_000_000 ==> w'.workers[k].phase == Building(true, 1))
  {
    hide Next, Heads, FollowUp, TaskFor;
    WorkedPhase(w, st, k);
    WorkDb(w, st);
    RunHistory.AfterWorkDb(w, k, st.choice);
  }

  // ---- a message that comes again --------------------------------------------------------

  /** Worker `k` is on its way to the snapshot that SUCCEEDED run `r` has. */
  ghost predicate Returning(w: World, k: Id, r: Id) {
    && k in w.workers && w.workers[k].task.run == r && RunIs(w, r, Succeeded)
    && match w.workers[k].phase
       case Received => true
       case Building(_, _) => true
       case LoadingExisting => true
       case Built(x) => x in w.db.snapshots && w.db.snapshots[x].run == r
       case _ => false
  }

  function ToReturn(phase: Phase): nat {
    match phase
    case Received => 3
    case Building(_, _) => 2
    case LoadingExisting => 1
    case _ => 0
  }

  lemma ReturningPhase(w: World, k: Worker, c: Choice)
    requires c.outcome.Ok? && k.task.run in w.db.runs && w.db.runs[k.task.run].status.Succeeded?
    requires HasSnapshot(w.db.snapshots, k.task.run)
    ensures k.phase.Received? ==> PhaseAfter(w, k, c) == Building(false, 1)
    ensures k.phase.Building? ==> PhaseAfter(w, k, c) == LoadingExisting
    ensures k.phase.LoadingExisting? ==> PhaseAfter(w, k, c).Built? && PhaseAfter(w, k, c).snapshot in w.db.snapshots
                                         && w.db.snapshots[PhaseAfter(w, k, c).snapshot].run == k.task.run
  {
    hide FollowUp, TaskFor, CommitOutcomeOf, ScopeStillActive, EnsureScope, Heads, HasSnapshot;
  }

  lemma SucceededHas(w: World, r: Id)
    requires Sound(w) && RunIs(w, r, Succeeded)
    ensures HasSnapshot(w.db.snapshots, r)
  {
    hide Sound;
    Steps.InvOf(w);
    Steps.SnapshotsOf(w.db);
  }

  lemma ReturningTurn(w: World, st: Step, k: Id, r: Id)
    requires Sound(w) && Enabled(w, st) && Returning(w, k, r)
    requires WorksFor(st, k) ==> st.choice.outcome.Ok? && !w.workers[k].phase.Built?
    ensures Returning(Next(w, st), k, r)
    ensures ToReturn(Next(w, st).workers[k].phase) == ToReturn(w.workers[k].phase) - if WorksFor(st, k) then 1 else 0
  {
    hide Sound, Enabled, Next, PhaseAfter, HasSnapshot;
    SucceededStays(w, st, r);
    NextKeepsSnapshots(w, st);
    if WorksFor(st, k) {
      WorkedPhase(w, st, k);
      SucceededHas(w, r);
      ReturningPhase(w, w.workers[k], st.choice);
    } else {
      WorkerStill(w, st, k);
    }
  }

  lemma {:induction false} StaysReturning(ws: seq<World>, steps: seq<Step>, i: nat, j: nat, k: Id, r: Id)
    requires Execution(ws, steps) && i <= j < |ws| && Returning(ws[i], k, r)
    requires forall m :: i <= m < j && WorksFor(steps[m], k) ==> steps[m].choice.outcome.Ok?
    requires Turns(steps, k, j) - Turns(steps, k, i) <= ToReturn(ws[i].workers[k].phase)
    ensures Returning(ws[j], k, r)
    ensures ToReturn(ws[j].workers[k].phase)
      == ToReturn(ws[i].workers[k].phase) - (Turns(steps, k, j) - Turns(steps, k, i))
    decreases j - i
  {
    hide Sound, Enabled, Next, Returning, ToReturn;
    if i < j {
      var n := j - 1;
      StaysReturning(ws, steps, i, n, k, r);
      Safety.AlwaysSound(ws, steps, n);
      ReturningWorker(ws[n], k, r);
      ReturningTurn(ws[n], steps[n], k, r);
    }
  }

  lemma ReturningWorker(w: World, k: Id, r: Id)
    requires Returning(w, k, r)
    ensures k in w.workers && (w.workers[k].phase.Built? <==> ToReturn(w.workers[k].phase) == 0)
  {
  }

  /** A message for a run that has SUCCEEDED, whoever built it, ends with the run's one snapshot in three transactions,
      whatever else goes on: nothing is built twice, and nothing fails. */
  lemma MessageAfterSuccess(ws: seq<World>, steps: seq<Step>, i: nat, j: nat, k: Id, r: Id) returns (x: Id)
    requires Execution(ws, steps) && i <= j < |ws|
    requires k in ws[i].workers && ws[i].workers[k].phase.Received? && ws[i].workers[k].task.run == r
    requires r in ws[i].db.runs && ws[i].db.runs[r].status.Succeeded?
    requires forall m :: i <= m < j && WorksFor(steps[m], k) ==> steps[m].choice.outcome.Ok?
    requires Turns(steps, k, j) - Turns(steps, k, i) == 3
    ensures HasBuilt(ws[j], k, r, x)
  {
    hide Execution, Sound, Inv;
    StaysReturning(ws, steps, i, j, k, r);
    Safety.AlwaysSound(ws, steps, j);
    Steps.InvOf(ws[j]);
    Steps.SnapshotsOf(ws[j].db);
    ReturningWorker(ws[j], k, r);
    x := ws[j].workers[k].phase.snapshot;
  }

  // ---- builds that fail ------------------------------------------------------------------

  /** Run `r` was SUCCEEDED and is as it was, or it is FAILED with this code; no other run changed. */
  predicate FailedWith(runs: map<Id, Run>, runs': map<Id, Run>, r: Id, code: FailureCode) {
    && r in runs && r in runs' && runs' == runs[r := runs'[r]]
    && (if runs[r].status.Succeeded? then runs'[r] == runs[r]
        else runs'[r].status.Failed? && runs'[r].failure == Some(code) && runs'[r].ref == runs[r].ref)
  }

  /** A failed build is recorded: with the build's own code, with NO_INCLUDED_FILES for an empty result under the active
      scope, and by the task's handler, unless the run is done already, so that it never leaves its run PENDING or
      RUNNING. */
  lemma FailureRecorded(w: World, st: Step, k: Id)
    requires Enabled(w, st) && WorksFor(st, k) && !st.choice.outcome.Error? && w.workers[k].task.run in w.db.runs
    ensures var (p, r, runs, runs') := (w.workers[k], w.workers[k].task.run, w.db.runs, Next(w, st).db.runs);
      && (p.phase.FailingBuild? ==> FailedWith(runs, runs', r, p.phase.code))
      && (p.phase.EmptyResult? && ActiveIs(w, runs[r].ref.conn, p.phase.scope) ==>
            FailedWith(runs, runs', r, NoIncludedFiles))
      && (p.phase.Failing? ==>
            if runs[r].status.Succeeded? || runs[r].status.Failed? then runs' == runs
            else FailedWith(runs, runs', r, if p.task.WebhookTask? then SnapshotWriteFailed else st.choice.code))
  {
    hide Next, DbAfter, FailedWith;
    WorkDb(w, st);
    RunHistory.AfterWorkDb(w, k, st.choice);
    FailureDb(w, w.workers[k], st.choice);
  }

  lemma MarkedFailed(s: State, r: Id, code: FailureCode, at: Time)
    requires r in s.runs
    ensures FailedWith(s.runs, MarkFailed(s, r, code, at).runs, r, code)
  {
  }

  lemma FailureDb(w: World, p: Worker, c: Choice)
    requires !c.outcome.Error? && p.task.run in w.db.runs
    ensures var (r, runs, runs') := (p.task.run, w.db.runs, DbAfter(w.db, w.queueConfigured, p, c).runs);
      && (p.phase.FailingBuild? ==> FailedWith(runs, runs', r, p.phase.code))
      && (p.phase.EmptyResult? && ActiveIs(w, runs[r].ref.conn, p.phase.scope) ==>
            FailedWith(runs, runs', r, NoIncludedFiles))
      && (p.phase.Failing? ==>
            if runs[r].status.Succeeded? || runs[r].status.Failed? then runs' == runs
            else FailedWith(runs, runs', r, if p.task.WebhookTask? then SnapshotWriteFailed else c.code))
  {
    hide FailedWith, FailWebhook, FollowUp, CommitSnapshot, EnsureScope, DispatchFailed, CompleteEvent, MarkRunning;
    var at := c.clock.check;
    MarkedFailed(w.db, p.task.run, NoIncludedFiles, at);
    MarkedFailed(w.db, p.task.run, SnapshotWriteFailed, at);
    MarkedFailed(w.db, p.task.run, c.code, at);
    if p.phase.FailingBuild? { MarkedFailed(w.db, p.task.run, p.phase.code, at); }
    if p.phase.Failing? && p.task.WebhookTask? { Released.FailWebhookRuns(w.db, p.task.event, p.task.run, at); }
  }

  predicate EndedPhase(phase: Phase) { phase.FollowingUp? || phase.Sending? || phase.DispatchFailing? }

  predicate NotActive(w: World, r: Id) {
    r in w.db.runs ==> w.db.runs[r].status.Succeeded? || w.db.runs[r].status.Failed?
  }

  lemma EntersEnd(w: World, k: Worker, c: Choice)
    requires EndedPhase(PhaseAfter(w, k, c)) && (k.phase.Failing? ==> !c.outcome.Error?)
    ensures EndedPhase(k.phase) || (k.phase.Failing? && !c.outcome.Error?) || k.phase.Built?
  {
    hide FollowUp, TaskFor, CommitOutcomeOf, ScopeStillActive, EnsureScope, Heads, Startable;
  }

  lemma StaysEnded(w: World, st: Step, r: Id)
    requires Sound(w) && Enabled(w, st) && NotActive(w, r) && r in w.db.issued
    ensures NotActive(Next(w, st), r)
  {
    hide Sound, Inv, Enabled, Next;
    RunHistory.NextEvolves(w, st);
  }

  lemma BuiltEnded(w: World, k: Id)
    requires Sound(w) && k in w.workers && w.workers[k].phase.Built?
    ensures NotActive(w, w.workers[k].task.run)
  {
    hide Sound;
    PhaseOf(w, k);
    Steps.InvOf(w);
    SnapshotSucceeded(w.db, w.workers[k].task.run);
  }

  lemma TaskIssued(w: World, k: Id)
    requires Sound(w) && k in w.workers
    ensures w.workers[k].task.run in w.db.issued
  {
    hide Inv, LinksSound, LinksCover, MessagesSound, AnnouncedSound, BegunSound, BuiltSound, PayloadsSound, PhaseSound;
    assert TaskSound(w.db, w.links, w.workers[k].task);
  }

  /** When a worker has come to its follow-up, and its failure handler did not raise, its run is not left PENDING or
      RUNNING. */
  lemma {:induction false} EndsTerminal(ws: seq<World>, steps: seq<Step>, j: nat, k: Id)
    requires Execution(ws, steps) && j < |ws| && k in ws[j].workers && EndedPhase(ws[j].workers[k].phase)
    requires forall m :: 0 <= m < j && WorksFor(steps[m], k) && k in ws[m].workers && ws[m].workers[k].phase.Failing? ==>
      !steps[m].choice.outcome.Error?
    ensures NotActive(ws[j], ws[j].workers[k].task.run)
  {
    hide Sound, Enabled, Next, PhaseAfter, NotActive, EndedPhase;
    NoneWorks(ws[0]);
    assert j > 0;
    var w, st := ws[j - 1], steps[j - 1];
    Safety.AlwaysSound(ws, steps, j - 1);
    if k !in w.workers {
      NewWorker(w, st, k);
      NotEnded();
      assert false;
    } else {
      TaskIssued(w, k);
      if WorksFor(st, k) {
        WorkedPhase(w, st, k);
        EntersEnd(w, w.workers[k], st.choice);
      } else {
        WorkerStill(w, st, k);
      }
      if EndedPhase(w.workers[k].phase) {
        EndsTerminal(ws, steps, j - 1, k);
        StaysEnded(w, st, w.workers[k].task.run);
      } else if w.workers[k].phase.Built? {
        BuiltEnded(w, k);
        StaysEnded(w, st, w.workers[k].task.run);
      } else {
        FailingEnds(w, st, k);
      }
    }
  }

  lemma NoneWorks(w: World)
    requires Initial(w)
    ensures w.workers == map[]
  {
  }

  lemma NotEnded()
    ensures !EndedPhase(Phase.Received)
  {
  }

  lemma FailingEnds(w: World, st: Step, k: Id)
    requires Sound(w) && Enabled(w, st) && WorksFor(st, k) && k in w.workers && w.workers[k].phase.Failing?
    requires !st.choice.outcome.Error?
    ensures NotActive(Next(w, st), w.workers[k].task.run)
  {
    hide Sound, Enabled, Next;
    if w.workers[k].task.run in w.db.runs {
      LiveWorker(w, st, k);
      FailureRecorded(w, st, k);
    } else {
      TaskIssued(w, k);
      StaysEnded(w, st, w.workers[k].task.run);
    }
  }

  /** The failure a raising step of a build is recorded as, if it is recorded before the task's own handler runs. */
  function RaisedCode(phase: Phase, c: Choice): Option<FailureCode>
    requires c.outcome.Error?
  {
    match phase
    case Resolving(_) => Some(c.outcome.code)
    case Scoping(_, _, _) => Some(c.outcome.code)
    case Reading(_, _, _, _) => Some(c.outcome.code)
    case Committing(_, _, _, _) => Some(SnapshotWriteFailed)
    case _ => None
  }

  predicate BuildPhase(k: Worker) {
    && !EndedPhase(k.phase) && !k.phase.Done? && !k.phase.Failing?
    && (k.task.ManualTask? ==> !k.phase.Received? && !k.phase.Built?)
  }

  lemma RaisedPhase(w: World, st: Step, k: Id)
    requires Enabled(w, st) && WorksFor(st, k) && st.choice.outcome.Error? && BuildPhase(w.workers[k])
    ensures var (phase, w') := (w.workers[k].phase, Next(w, st));
      && w'.db == w.db && k in w'.workers && w'.workers[k].task == w.workers[k].task
      && (RaisedCode(phase, st.choice).Some? ==>
            w'.workers[k].phase == FailingBuild(RaisedCode(phase, st.choice).value))
      && (RaisedCode(phase, st.choice).None? ==> w'.workers[k].phase == Failing)
  {
    hide Next, FollowUp, TaskFor, Heads;
    WorkedPhase(w, st, k);
    WorkDb(w, st);
    RunHistory.AfterWorkDb(w, k, st.choice);
  }

  /** A build whose Git work or commit raises changes nothing by that, and at the worker's next turn its run is FAILED
      with the failure's code, or SUCCEEDED if another worker got there; then the task's handler is next. */
  lemma RaiseRecorded(ws: seq<World>, steps: seq<Step>, i: nat, j: nat, k: Id)
    requires Execution(ws, steps) && i < j < |steps|
    requires WorksFor(steps[i], k) && steps[i].choice.outcome.Error? && BuildPhase(ws[i].workers[k])
    requires RaisedCode(ws[i].workers[k].phase, steps[i].choice).Some?
    requires WorksFor(steps[j], k) && !steps[j].choice.outcome.Error?
    requires forall m :: i < m < j ==> !WorksFor(steps[m], k)
    ensures var (r, w') := (ws[i].workers[k].task.run, ws[j + 1]);
      && ws[i + 1].db == ws[i].db && k in w'.workers && w'.workers[k].phase == Failing
      && r in ws[j].db.runs
      && FailedWith(ws[j].db.runs, w'.db.runs, r, RaisedCode(ws[i].workers[k].phase, steps[i].choice).value)
  {
    hide Next, Enabled, FailedWith, BuildPhase, RaisedCode, Sound;
    LiveWorker(ws[i], steps[i], k);
    var r := ws[i].workers[k].task.run;
    Safety.AlwaysSound(ws, steps, i);
    RaisedStarted(ws[i], k, steps[i].choice);
    RaisedPhase(ws[i], steps[i], k);
    WorkerWaits(ws, steps, i + 1, j, k);
    StartedStays(ws, steps, i, j, r);
    FailureRecorded(ws[j], steps[j], k);
    WorkedPhase(ws[j], steps[j], k);
    HandlerNext(ws[j], ws[j].workers[k], steps[j].choice);
  }

  lemma RaisedStarted(w: World, k: Id, c: Choice)
    requires Sound(w) && k in w.workers && c.outcome.Error? && RaisedCode(w.workers[k].phase, c).Some?
    ensures w.workers[k].task.run in w.db.runs && StatusRank(w.db.runs[w.workers[k].task.run].status) >= 2
  {
    hide Sound;
    PhaseOf(w, k);
  }

  lemma HandlerNext(w: World, k: Worker, c: Choice)
    requires k.phase.FailingBuild?
    ensures PhaseAfter(w, k, c) == Failing
  {
    hide FollowUp, TaskFor, CommitOutcomeOf, ScopeStillActive, EnsureScope, Heads, Startable;
  }

  /** After the handler, and after a snapshot, comes the follow-up; only a webhook task's raising handler ends the worker
      without one. A manual task's raising handler, and its raising bookkeeping of a snapshot, do not. */
  lemma FollowUpNext(w: World, st: Step, k: Id)
    requires Enabled(w, st) && WorksFor(st, k)
    requires w.workers[k].phase.Failing? || w.workers[k].phase.Built?
    ensures k in Next(w, st).workers
    ensures var (p, phase', raised) := (w.workers[k], Next(w, st).workers[k].phase, st.choice.outcome.Error?);
      if p.task.WebhookTask? && raised then phase' == (if p.phase.Failing? then Done else Failing)
      else phase' == FollowingUp
  {
    hide Next, FollowUp, TaskFor, Heads;
    WorkedPhase(w, st, k);
  }

  /** A read that finds nothing ends the build as an empty result, under the version it was read under. */
  lemma EmptyRead(w: World, st: Step, k: Id)
    requires Enabled(w, st) && WorksFor(st, k) && st.choice.outcome.Empty? && w.workers[k].phase.Reading?
    ensures Next(w, st).db == w.db && k in Next(w, st).workers && Next(w, st).workers[k].phase.EmptyResult?
    ensures Next(w, st).workers[k].phase.scope == w.workers[k].phase.scope
  {
    hide Next, FollowUp, TaskFor, Heads;
    WorkedPhase(w, st, k);
    WorkDb(w, st);
    RunHistory.AfterWorkDb(w, k, st.choice);
  }

  /** A build that is not taken up again needs a PENDING run: for a RUNNING one, begun by another worker, or a FAILED one
      it goes to the handler. */
  lemma NotWaiting(w: World, st: Step, k: Id)
    requires Enabled(w, st) && WorksFor(st, k) && !st.choice.outcome.Error? && w.workers[k].phase == Building(false, 1)
    requires w.workers[k].task.run in w.db.runs
    requires var run := w.db.runs[w.workers[k].task.run]; run.status.Running? || run.status.Failed? || run.status.Blocked?
    ensures Next(w, st).db == w.db && k in Next(w, st).workers && Next(w, st).workers[k].phase == Failing
  {
    hide Next, FollowUp, TaskFor, Heads;
    WorkedPhase(w, st, k);
    WorkDb(w, st);
    RunHistory.AfterWorkDb(w, k, st.choice);
  }

  /** A build whose ref the remote does not have fails with REF_NOT_FOUND; otherwise it goes on with the newest head. */
  lemma ResolvesNewest(w: World, st: Step, k: Id)
    requires Enabled(w, st) && WorksFor(st, k) && !st.choice.outcome.Error? && w.workers[k].phase.Resolving?
    requires w.workers[k].task.run in w.db.runs
    ensures k in Next(w, st).workers
    ensures var (phase', heads) := (Next(w, st).workers[k].phase, Heads(w, w.db.runs[w.workers[k].task.run].ref));
      if heads == [] then phase' == FailingBuild(RefNotFound)
      else phase'.Scoping? && phase'.version == |heads| - 1 && phase'.commit == heads[|heads| - 1]
  {
    hide Next, FollowUp, TaskFor, Heads;
    WorkedPhase(w, st, k);
  }
}
