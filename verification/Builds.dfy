/** Snapshot builds over whole runs: one snapshot per success, races, scope changes and bounded retries. */
module Builds {
  import opened Model
  import opened Deciding
  import opened Transactions
  import opened Invariant
  import opened Effects
  import opened World
  import opened Reachable
  import opened Steps
  import opened Safety
  import opened RunHistory

  // ---- one snapshot per success ----------------------------------------------------------

  /** In every reachable world a stored run is SUCCEEDED iff exactly one snapshot carries its id, and that
      snapshot is of the commit the run resolved. */
  lemma SucceededIffOneSnapshot(ws: seq<World>, steps: seq<Step>, i: nat, r: Id)
    requires Execution(ws, steps) && i < |ws| && r in ws[i].db.runs
    ensures var db := ws[i].db;
      db.runs[r].status.Succeeded? <==> exists x ::
          && x in db.snapshots && db.snapshots[x].run == r && db.runs[r].resolved == Some(db.snapshots[x].commit)
          && forall y :: y in db.snapshots && db.snapshots[y].run == r ==> y == x
  {
    hide Sound, Inv, Execution;
    AlwaysSound(ws, steps, i);
    InvOf(ws[i]);
    SnapshotsOf(ws[i].db);
  }

  // ---- only a commit adds a snapshot -----------------------------------------------------

  lemma PlacedSnapshots(s: State, a: Arrival, e: Id, ref: Ref)
    requires e in s.events && a.payload.request.Some?
    ensures Park(s, a, e, ref).state.snapshots == s.snapshots && Start(s, a, e, ref).state.snapshots == s.snapshots
  {
  }

  lemma AttachSnapshots(s: State, a: Arrival, d: Decision, e: Id)
    requires e in s.events
    ensures Attach(s, a, d, e).state.snapshots == s.snapshots
  {
    hide DispatchEvent, Park, Start;
    if a.payload.request.Some? { PlacedSnapshots(s, a, e, RequestedRef(a.payload)); }
  }

  lemma ProcessSnapshots(s: State, a: Arrival)
    ensures Process(s, a).state.snapshots == s.snapshots
  {
    hide Record, Attach, EventOf, DecisionFor;
    RecordFrame(s, a);
    AttachSnapshots(Record(s, a), a, DecisionFor(s, a), EventOf(s, a));
  }

  lemma RouteSnapshots(w: World, st: Step)
    requires Enabled(w, st) && !st.Deliver? && !st.Work?
    ensures Next(w, st).db.snapshots == w.db.snapshots
  {
    hide Next, ManualAllowed, Claimable, Cancellable;
    RouteDb(w, st);
  }

  lemma FailureSnapshots(s: State, e: Id, r: Id, code: FailureCode, now: Time)
    ensures FailWebhook(s, e, r, now).snapshots == s.snapshots && FailManual(s, r, code, now).snapshots == s.snapshots
  {
    hide RestoreCursor;
    var s1 := if r in s.runs && !IsTerminal(s.runs[r].status) then MarkFailed(s, r, SnapshotWriteFailed, now) else s;
    if LinkedTo(s, e, r) { RestoreOnlyCursors(UpdateEvent(s1, e, Decision.Queued, EventStatus.Failed, None), e); }
  }

  lemma DispatchFailedSnapshots(s: State, r: Id, now: Time)
    ensures DispatchFailed(s, r, now).snapshots == s.snapshots
  {
    hide RestoreCursor;
    if r in s.runs && s.runs[r].trigger.Some? && s.runs[r].trigger.value in s.events {
      var d := s.runs[r].trigger.value;
      RestoreOnlyCursors(
        UpdateEvent(MarkFailed(s, r, QueueDispatchFailed, now), d, Decision.Queued, EventStatus.Failed, Some(r)), d);
    }
  }

  lemma FollowUpSnapshots(s: State, r: Id, e: Option<Id>, t: FollowUpClock)
    ensures FollowUp(s, r, e, t).0.snapshots == s.snapshots
  {
    hide AnotherActive;
  }

  lemma WorkSnapshots(w: World, k: Worker, c: Choice)
    ensures var db := DbAfter(w.db, w.queueConfigured, k, c);
      db.snapshots == w.db.snapshots || (k.phase.Committing? && !c.outcome.Error?
        && CommitOutcomeOf(w.db, k.task.run, k.phase.scope) == Committed
        && db.snapshots == w.db.snapshots[c.newId := Snapshot(k.task.run, k.phase.scope, k.phase.commit)])
  {
    hide FailWebhook, DispatchFailed, FailManual, FollowUp, CommitOutcomeOf;
    var r := k.task.run;
    match k.phase
    case Failing =>
      FailureSnapshots(w.db, if k.task.WebhookTask? then k.task.event else 0, r, c.code, c.clock.check);
    case DispatchFailing(next) => DispatchFailedSnapshots(w.db, next, c.clock.check);
    case FollowingUp => FollowUpSnapshots(w.db, r, TaskEvent(k.task), c.clock);
    case _ =>
  }

  /** The step commits a snapshot of `r` built under `scope`. */
  predicate Commits(w: World, st: Step, r: Id, scope: Id) {
    && st.Work? && st.worker in w.workers && w.workers[st.worker].phase.Committing? && !st.choice.outcome.Error?
    && w.workers[st.worker].task.run == r && w.workers[st.worker].phase.scope == scope
    && CommitOutcomeOf(w.db, r, scope) == Committed
  }

  lemma NextSnapshots(w: World, st: Step, x: Id)
    requires Enabled(w, st) && x !in w.db.snapshots && x in Next(w, st).db.snapshots
    ensures var snapshot := Next(w, st).db.snapshots[x]; Commits(w, st, snapshot.run, snapshot.scope)
  {
    hide AfterDelivery, AfterWork, CanDeliver, Process, DbAfter, CommitOutcomeOf;
    if st.Deliver? {
      ProcessSnapshots(w.db, st.arrival);
      AfterDeliveryDb(w, st.arrival, st.version);
    } else if st.Work? {
      WorkSnapshots(w, w.workers[st.worker], st.choice);
      AfterWorkDb(w, st.worker, st.choice);
    } else {
      RouteSnapshots(w, st);
    }
  }

  lemma NextKeepsSnapshots(w: World, st: Step)
    requires Sound(w) && Enabled(w, st)
    ensures SnapshotsKept(w.db.snapshots, Next(w, st).db.snapshots)
  {
    hide Sound, Inv, Next, RunsForward, EventsKept, SnapshotsKept, LinkStep, TriggerStep, StatusStep, AddedBy, MovedBy;
    NextEvolves(w, st);
  }

  lemma {:induction false} SnapshotsStay(ws: seq<World>, steps: seq<Step>, i: nat, j: nat)
    requires Execution(ws, steps) && i <= j < |ws|
    ensures SnapshotsKept(ws[i].db.snapshots, ws[j].db.snapshots)
    decreases j - i
  {
    hide Sound, Next, Enabled;
    if i < j {
      SnapshotsStay(ws, steps, i, j - 1);
      AlwaysSound(ws, steps, j - 1);
      NextKeepsSnapshots(ws[j - 1], steps[j - 1]);
    }
  }

  /** With scope saves interleaved anywhere, every snapshot names the scope version that was active, on the
      run's connection, at the step that committed it. */
  lemma {:induction false} ScopeAtCommit(ws: seq<World>, steps: seq<Step>, j: nat, x: Id) returns (i: nat)
    requires Execution(ws, steps) && j < |ws| && x in ws[j].db.snapshots
    ensures i < j && x !in ws[i].db.snapshots && x in ws[i + 1].db.snapshots
    ensures var snapshot := ws[j].db.snapshots[x];
      && Commits(ws[i], steps[i], snapshot.run, snapshot.scope) && snapshot.run in ws[i].db.runs
      && ScopeStillActive(ws[i].db, ws[i].db.runs[snapshot.run].ref.conn, snapshot.scope)
  {
    hide Sound, Next, Enabled;
    assert j > 0;
    if x in ws[j - 1].db.snapshots {
      AlwaysSound(ws, steps, j - 1);
      NextKeepsSnapshots(ws[j - 1], steps[j - 1]);
      i := ScopeAtCommit(ws, steps, j - 1, x);
    } else {
      i := j - 1;
      NextSnapshots(ws[i], steps[i], x);
    }
  }

  // ---- a lost commit race ----------------------------------------------------------------

  predicate WorksFor(st: Step, k: Id) { st.Work? && st.worker == k }

  lemma RouteWorkers(w: World, st: Step)
    requires Enabled(w, st) && !st.Deliver? && !st.Work? && !st.Take?
    ensures Next(w, st).workers == w.workers
  {
    hide Commit, Claim, CreateManual, EnqueueFailed, CancelManual, SaveScope, Heads, Claimable, ManualAllowed;
    match st
    case ClaimDispatch(_, r, at) => CommitFrame(w, Claim(w.db, r, at, at - RETRY_AFTER));
    case EnqueueFailure(e, r, _) => CommitFrame(w, EnqueueFailed(w.db, e, r));
    case RequestManual(ref, origin, r, at) => CommitFrame(w, CreateManual(w.db, ref, origin, r, at));
    case WithdrawManual(r) => CommitFrame(w, CancelManual(w.db, r));
    case SaveScopeRules(conn, scope) => CommitFrame(w, SaveScope(w.db, conn, scope));
    case Refuse(key, newEvent, at) => CommitFrame(w, Reject(w.db, key, newEvent, at));
    case _ =>
  }

  lemma TakeWorkers(w: World, st: Step)
    requires Enabled(w, st) && st.Take?
    ensures Next(w, st).workers == w.workers[st.worker := Worker(st.task, Phase.Received)] && st.worker !in w.workers
  {
  }

  lemma WorkedOthers(w: World, st: Step, k: Id)
    requires Enabled(w, st) && st.Work? && k != st.worker
    ensures k in Next(w, st).workers <==> k in w.workers
    ensures k in w.workers ==> Next(w, st).workers[k] == w.workers[k]
  {
    hide Transacted, PhaseAfter;
  }

  lemma WorkerStill(w: World, st: Step, k: Id)
    requires Enabled(w, st) && k in w.workers && !WorksFor(st, k)
    ensures k in Next(w, st).workers && Next(w, st).workers[k] == w.workers[k]
  {
    hide Next, Enabled;
    if st.Deliver? { NextDeliveryWorkers(w, st); }
    else if st.Work? { WorkedOthers(w, st, k); }
    else if st.Take? { TakeWorkers(w, st); }
    else { RouteWorkers(w, st); }
  }

  lemma NextDeliveryWorkers(w: World, st: Step)
    requires Enabled(w, st) && st.Deliver?
    ensures Next(w, st).workers == w.workers
  {
    hide AfterDelivery;
    DeliveryWorkers(w, st.arrival, st.version);
  }

  lemma DeliveryWorkers(w: World, a: Arrival, version: Option<nat>)
    ensures AfterDelivery(w, a, version).workers == w.workers
  {
    hide Process, Links, Known;
    assert Delivered(w, a).workers == w.workers;
    assert Announced(w, a, version).workers == w.workers;
  }

  lemma WorkedPhase(w: World, st: Step, k: Id)
    requires Enabled(w, st) && WorksFor(st, k)
    ensures k in w.workers && k in Next(w, st).workers
    ensures Next(w, st).workers[k] == w.workers[k].(phase := PhaseAfter(w, w.workers[k], st.choice))
  {
    hide Transacted, PhaseAfter;
  }

  lemma {:induction false} WorkerWaits(ws: seq<World>, steps: seq<Step>, i: nat, j: nat, k: Id)
    requires Execution(ws, steps) && i <= j < |ws| && k in ws[i].workers
    requires forall m :: i <= m < j ==> !WorksFor(steps[m], k)
    ensures k in ws[j].workers && ws[j].workers[k] == ws[i].workers[k]
    decreases j - i
  {
    hide Next, Enabled;
    if i < j {
      WorkerWaits(ws, steps, i, j - 1, k);
      WorkerStill(ws[j - 1], steps[j - 1], k);
    }
  }

  /** The step tries to commit a build of `r` that another worker has already completed. */
  predicate LosesRace(w: World, st: Step, r: Id) {
    && st.Work? && st.worker in w.workers && w.workers[st.worker].phase.Committing? && !st.choice.outcome.Error?
    && w.workers[st.worker].task.run == r && CommitOutcomeOf(w.db, r, w.workers[st.worker].phase.scope) == Conflict
  }

  lemma LosingStep(w: World, st: Step, r: Id)
    requires Sound(w) && Enabled(w, st) && LosesRace(w, st, r)
    ensures Next(w, st).db == w.db && HasSnapshot(w.db.snapshots, r)
    ensures Next(w, st).workers[st.worker] == w.workers[st.worker].(phase := LoadingExisting)
  {
    hide Inv, LinksSound, LinksCover, MessagesSound, AnnouncedSound, BegunSound, BuiltSound, PayloadsSound,
      AfterWork, DbAfter, CanWork, HasSnapshot;
    WorkedPhase(w, st, st.worker);
    AfterWorkDb(w, st.worker, st.choice);
    CommittingDb(w, w.workers[st.worker], st.choice);
    var phase := w.workers[st.worker].phase;
    CommittingSound(w, r, phase);
  }

  lemma LoadingStep(w: World, st: Step, r: Id, x: Id)
    requires Sound(w) && Enabled(w, st) && st.Work? && w.workers[st.worker].phase.LoadingExisting?
    requires w.workers[st.worker].task.run == r && !st.choice.outcome.Error?
    requires x in w.db.snapshots && w.db.snapshots[x].run == r
    ensures Next(w, st).workers[st.worker].phase == Built(x)
  {
    hide Sound, Inv, Next, PhaseAfter;
    WorkedPhase(w, st, st.worker);
    InvOf(w);
    SnapshotsOf(w.db);
    LoadingPhase(w, w.workers[st.worker], st.choice, x);
  }

  lemma LoadingPhase(w: World, k: Worker, c: Choice, x: Id)
    requires SnapshotsSound(w.db.runs, w.db.snapshots) && k.phase.LoadingExisting? && !c.outcome.Error?
    requires x in w.db.snapshots && w.db.snapshots[x].run == k.task.run
    ensures PhaseAfter(w, k, c) == Built(x)
  {
    hide FollowUp, TaskFor, Startable, CommitOutcomeOf, ScopeStillActive, Heads, EnsureScope;
    assert HasSnapshot(w.db.snapshots, k.task.run);
  }

  /** A worker that loses the commit race leaves the database alone and, at its next step, returns the
      winner's snapshot: the only one its run has. */
  lemma LoserGetsWinner(ws: seq<World>, steps: seq<Step>, i: nat, j: nat, r: Id) returns (x: Id)
    requires Execution(ws, steps) && i < j < |steps| && LosesRace(ws[i], steps[i], r)
    requires WorksFor(steps[j], steps[i].worker) && !steps[j].choice.outcome.Error?
    requires forall m :: i < m < j ==> !WorksFor(steps[m], steps[i].worker)
    ensures ws[i + 1].db == ws[i].db && x in ws[i].db.snapshots && ws[i].db.snapshots[x].run == r
    ensures var w := ws[j + 1];
      && steps[i].worker in w.workers && w.workers[steps[i].worker].phase == Built(x)
      && forall y :: y in w.db.snapshots && w.db.snapshots[y].run == r ==> y == x
  {
    hide Sound, Inv, Next, LosesRace;
    LosingWorker(ws[i], steps[i], r);
    var k := steps[i].worker;
    AlwaysSound(ws, steps, i);
    AlwaysSound(ws, steps, j);
    AlwaysSound(ws, steps, j + 1);
    LosingStep(ws[i], steps[i], r);
    x :| x in ws[i].db.snapshots && ws[i].db.snapshots[x].run == r;
    WorkerWaits(ws, steps, i + 1, j, k);
    SnapshotsStay(ws, steps, i, j);
    SnapshotsStay(ws, steps, j, j + 1);
    LoadingStep(ws[j], steps[j], r, x);
    WorkedPhase(ws[j], steps[j], k);
    InvOf(ws[j + 1]);
    SnapshotsOf(ws[j + 1].db);
  }

  lemma LosingWorker(w: World, st: Step, r: Id)
    requires Enabled(w, st) && LosesRace(w, st, r)
    ensures st.Work? && st.worker in w.workers && w.workers[st.worker].task.run == r && st.worker in Next(w, st).workers
  {
    hide Next;
    WorkedPhase(w, st, st.worker);
  }

  // ---- bounded attempts ------------------------------------------------------------------

  /** How many more tree reads, and how many more transactions, a worker in this phase can do. */
  function ReadsLeft(phase: Phase): nat {
    match phase
    case Received => 2
    case Building(_, n) => n + 1
    case Starting(n) => n + 1
    case Resolving(n) => n + 1
    case Scoping(n, _, _) => n + 1
    case Reading(n, _, _, _) => n + 1
    case Committing(n, _, _, _) => n
    case EmptyResult(n, _) => n
    case _ => 0
  }

  function StepsLeft(phase: Phase): nat {
    match phase
    case Received => 20
    case Building(_, n) => 7 * n + 12
    case Starting(n) => 7 * n + 11
    case Resolving(n) => 7 * n + 10
    case Scoping(n, _, _) => 7 * n + 9
    case Reading(n, _, _, _) => 7 * n + 8
    case Committing(n, _, _, _) => 7 * n + 7
    case EmptyResult(n, _) => 7 * n + 7
    case LoadingExisting => 6
    case FailingBuild(_) => 5
    case Built(_) => 5
    case Failing => 4
    case FollowingUp => 3
    case Sending(_, _) => 2
    case DispatchFailing(_) => 1
    case Done => 0
  }

  /** How often worker `k` read a tree, and how many transactions it did, in the first `n` steps. */
  ghost function Reads(ws: seq<World>, steps: seq<Step>, k: Id, n: nat): nat
    requires n <= |steps| <= |ws|
  {
    if n == 0 then 0
    else
      Reads(ws, steps, k, n - 1)
      + (if WorksFor(steps[n - 1], k) && k in ws[n - 1].workers && ws[n - 1].workers[k].phase.Reading? then 1 else 0)
  }

  ghost function Turns(steps: seq<Step>, k: Id, n: nat): nat
    requires n <= |steps|
  {
    if n == 0 then 0 else Turns(steps, k, n - 1) + (if WorksFor(steps[n - 1], k) then 1 else 0)
  }

  lemma PhaseProgress(w: World, k: Worker, c: Choice)
    requires !k.phase.Done?
    ensures StepsLeft(PhaseAfter(w, k, c)) < StepsLeft(k.phase)
    ensures ReadsLeft(PhaseAfter(w, k, c)) + (if k.phase.Reading? then 1 else 0) <= ReadsLeft(k.phase)
  {
    hide FollowUp, TaskFor, Startable, CommitOutcomeOf, ScopeStillActive, Heads, EnsureScope;
  }

  /** A worker is taken once, and its task then ends after at most 20 transactions of which at most two read a
      tree: a build is retried at most once, however often the scope changes under it. */
  lemma {:induction false} WorkersEnd(ws: seq<World>, steps: seq<Step>, k: Id, n: nat)
    requires Execution(ws, steps) && n <= |steps|
    ensures Turns(steps, k, n) + (if k in ws[n].workers then StepsLeft(ws[n].workers[k].phase) else 20) <= 20
    ensures Reads(ws, steps, k, n) + (if k in ws[n].workers then ReadsLeft(ws[n].workers[k].phase) else 2) <= 2
  {
    hide Enabled, Next, PhaseAfter;
    if n > 0 {
      WorkersEnd(ws, steps, k, n - 1);
      var w, st := ws[n - 1], steps[n - 1];
      if WorksFor(st, k) {
        LiveWorker(w, st, k);
        WorkedPhase(w, st, k);
        PhaseProgress(w, w.workers[k], st.choice);
      } else if k in w.workers {
        WorkerStill(w, st, k);
      } else {
        NewWorker(w, st, k);
      }
    }
  }

  lemma LiveWorker(w: World, st: Step, k: Id)
    requires Enabled(w, st) && WorksFor(st, k)
    ensures k in w.workers && !w.workers[k].phase.Done?
  {
  }

  lemma NewWorker(w: World, st: Step, k: Id)
    requires Enabled(w, st) && k !in w.workers
    ensures k !in Next(w, st).workers || Next(w, st).workers[k].phase == Phase.Received
  {
    hide Next, Enabled;
    if st.Deliver? {
      NextDeliveryWorkers(w, st);
    } else if st.Work? {
      WorkedPhase(w, st, st.worker);
      WorkedOthers(w, st, k);
    } else if st.Take? {
      TakeWorkers(w, st);
    } else {
      RouteWorkers(w, st);
    }
  }

  // ---- the event of a finished build -----------------------------------------------------

  /** When a webhook task ends well, its event, if still linked to the run, is COMPLETED with the run's one
      snapshot; no other event changes. */
  lemma EventCompleted(w: World, st: Step)
    requires Sound(w) && Enabled(w, st) && st.Work? && !st.choice.outcome.Error?
    requires w.workers[st.worker].phase.Built? && w.workers[st.worker].task.WebhookTask?
    requires LinkedTo(w.db, w.workers[st.worker].task.event, w.workers[st.worker].task.run)
    ensures var (k, s') := (w.workers[st.worker], Next(w, st).db);
      && k.task.event in s'.events && s'.events[k.task.event].status.Completed?
      && s'.events[k.task.event].snapshot == Some(k.phase.snapshot) && s'.events[k.task.event].run == Some(k.task.run)
      && SnapshotOf(s'.snapshots, k.task.run) == Some(k.phase.snapshot)
      && forall e :: e in w.db.events && e != k.task.event ==> e in s'.events && s'.events[e] == w.db.events[e]
  {
    hide Sound, AfterWork, SnapshotOf;
    var k := w.workers[st.worker];
    AfterWorkDb(w, st.worker, st.choice);
    BuiltSnapshot(w, st.worker);
  }

  lemma BuiltSnapshot(w: World, k: Id)
    requires Sound(w) && k in w.workers && w.workers[k].phase.Built?
    ensures SnapshotOf(w.db.snapshots, w.workers[k].task.run) == Some(w.workers[k].phase.snapshot)
  {
    hide Inv, LinksSound, LinksCover, MessagesSound, AnnouncedSound, BegunSound, BuiltSound, PayloadsSound;
    InvOf(w);
    SnapshotsOf(w.db);
    assert PhaseSound(w.db, w.remote, w.links, w.begun, w.workers[k].task.run, w.workers[k].phase);
    assert HasSnapshot(w.db.snapshots, w.workers[k].task.run);
  }
}
