/** No follow-up is left behind: after a follow-up step, and over whole runs. */
module Released {
  import opened Model
  import opened Deciding
  import opened Transactions
  import opened Invariant
  import opened Effects
  import opened World
  import opened Reachable
  import opened Steps
  import Safety
  import opened RunHistory
  import opened Builds
  import CursorRecovery
  import opened FollowUps
  import Leases
  import opened DistinctDeliveries

  ghost predicate ActiveOn(s: State, ref: Ref) {
    exists q :: q in s.runs && s.runs[q].ref == ref && IsActive(s.runs[q].status)
  }

  ghost predicate BlockedOn(s: State, ref: Ref) {
    exists b :: b in s.runs && s.runs[b].ref == ref && s.runs[b].status.Blocked?
  }

  // ---- one follow-up step ----------------------------------------------------------------

  lemma ActiveIs(s: State, ref: Ref, q: Id)
    requires q in s.runs && s.runs[q].ref == ref && IsActive(s.runs[q].status)
    ensures ActiveOn(s, ref)
  {
  }

  /** The next run of a finished one: an active run that is there, or else the BLOCKED one, released. */
  lemma NextRunUnblocks(s: State, r: Id, t: FollowUpClock)
    requires FollowUpsReady(s) && r in s.runs && IsTerminal(s.runs[r].status)
    ensures var (s', next) := NextRun(s, r, t);
      var ref := s.runs[r].ref;
      && (BlockedOn(s, ref) ==> ActiveOn(s', ref))
      && (BlockedOn(s, ref) && !ActiveOn(s, ref) ==>
            && next.Some? && next.value in s.runs && s.runs[next.value].status.Blocked?
            && s.runs[next.value].ref == ref
            && next.value in s'.runs && s'.runs[next.value].status.Pending? && s'.runs[next.value].dispatchedAt.None?
            && s'.runs[next.value].trigger == s.runs[next.value].trigger
            && s'.runs[next.value].origin == s.runs[next.value].origin)
  {
    hide FollowUpsReady, ActiveOn;
    var ref := s.runs[r].ref;
    var (s', next) := NextRun(s, r, t);
    if BlockedOn(s, ref) {
      var p := Latest(s.runs, ref, Pending);
      var q := Latest(s.runs, ref, Running);
      var b := Earliest(s.runs, ref, Blocked);
      ReadyOf(s, b.value);
      if p.Some? {
        ActiveIs(s, ref, p.value);
        StillActive(s, r, t, p.value);
      } else if q.Some? {
        ActiveIs(s, ref, q.value);
        StillActive(s, r, t, q.value);
      } else {
        assert !AnotherActive(s, b.value);
        ActiveIs(s', ref, b.value);
      }
    }
  }

  /** A follow-up leaves an active run of the ref as it is. */
  lemma StillActive(s: State, r: Id, t: FollowUpClock, q: Id)
    requires r in s.runs && q in s.runs && s.runs[q].ref == s.runs[r].ref && IsActive(s.runs[q].status)
    ensures ActiveOn(NextRun(s, r, t).0, s.runs[r].ref)
  {
    hide Releasable;
    ActiveIs(NextRun(s, r, t).0, s.runs[r].ref, q);
  }

  lemma FollowUpUnblocks(s: State, r: Id, e: Option<Id>, t: FollowUpClock)
    requires FollowUpsReady(s) && Relevant(s, r, e)
    ensures var (s', next) := FollowUp(s, r, e, t);
      var ref := s.runs[r].ref;
      && (BlockedOn(s, ref) ==> ActiveOn(s', ref))
      && (BlockedOn(s, ref) && !ActiveOn(s, ref) ==>
            && next.Some? && next.value in s.runs && s.runs[next.value].status.Blocked?
            && s.runs[next.value].ref == ref && s'.runs[next.value].status.Pending?
            && s'.runs[next.value].trigger == s.runs[next.value].trigger
            && s'.runs[next.value].origin == s.runs[next.value].origin)
  {
    hide FollowUpsReady, NextRun, BlockedOn, ActiveOn;
    NextRunUnblocks(s, r, t);
    var (s1, next) := NextRun(s, r, t);
    if next.Some? && Claimable(s1, next.value, t.stale - RETRY_AFTER) {
      if ActiveOn(s1, s.runs[r].ref) { ClaimActive(s1, next.value, t.enqueue, t.stale - RETRY_AFTER, s.runs[r].ref); }
    }
  }

  lemma ClaimActive(s: State, r: Id, at: Time, stale: Time, ref: Ref)
    requires ActiveOn(s, ref)
    ensures ActiveOn(Claim(s, r, at, stale), ref)
  {
    var q :| q in s.runs && s.runs[q].ref == ref && IsActive(s.runs[q].status);
    ActiveIs(Claim(s, r, at, stale), ref, q);
  }

  lemma FollowUpAddsNoBlocked(s: State, r: Id, e: Option<Id>, t: FollowUpClock, b: Id)
    requires b in FollowUp(s, r, e, t).0.runs && FollowUp(s, r, e, t).0.runs[b].status.Blocked?
    ensures b in s.runs && s.runs[b] == FollowUp(s, r, e, t).0.runs[b]
  {
    hide AnotherActive;
  }

  /** A worker's task, by permanent links, names the run its event is linked to. */
  lemma TaskRelevant(w: World, k: Id)
    requires Sound(w) && LinksCurrent(w.db, w.links) && k in w.workers
    requires var r := w.workers[k].task.run; r in w.db.runs && IsTerminal(w.db.runs[r].status)
    ensures Relevant(w.db, w.workers[k].task.run, TaskEvent(w.workers[k].task))
  {
    hide Inv, LinksSound, LinksCover, MessagesSound, AnnouncedSound, BegunSound, BuiltSound, PayloadsSound, PhaseSound;
    assert TaskSound(w.db, w.links, w.workers[k].task);
  }

  predicate FollowsUp(w: World, st: Step, r: Id) {
    && st.Work? && st.worker in w.workers && w.workers[st.worker].phase.FollowingUp? && !st.choice.outcome.Error?
    && w.workers[st.worker].task.run == r && w.queueConfigured && r in w.db.runs && IsTerminal(w.db.runs[r].status)
  }

  lemma FollowUpStep(w: World, st: Step, r: Id)
    requires Sound(w) && Enabled(w, st) && FollowsUp(w, st, r) && LinksCurrent(w.db, w.links) && FollowUpsReady(w.db)
    ensures var (w', ref) := (Next(w, st), w.db.runs[r].ref);
      && (BlockedOn(w'.db, ref) ==> ActiveOn(w'.db, ref))
      && (BlockedOn(w.db, ref) && !ActiveOn(w.db, ref) ==> exists b, e ::
            && b in w.db.runs && w.db.runs[b].ref == ref && w.db.runs[b].status.Blocked?
            && w.db.runs[b].trigger == Some(e) && b in w'.db.runs && w'.db.runs[b].status.Pending?
            && st.worker in w'.workers && w'.workers[st.worker].phase == Sending(b, WebhookTask(e, b)))
  {
    hide Sound, Inv, FollowUpsReady, LinksCurrent, FollowUp, BlockedOn, ActiveOn, AfterWork, CanWork, Relevant, Links;
    var k, s := w.workers[st.worker], w.db;
    var ref := s.runs[r].ref;
    TaskRelevant(w, st.worker);
    FollowUpUnblocks(s, r, TaskEvent(k.task), st.choice.clock);
    AfterWorkDb(w, st.worker, st.choice);
    WorkedPhase(w, st, st.worker);
    if BlockedOn(Next(w, st).db, ref) { FewerBlocked(s, r, TaskEvent(k.task), st.choice.clock, ref); }
    if BlockedOn(s, ref) && !ActiveOn(s, ref) {
      var (s', next) := FollowUp(s, r, TaskEvent(k.task), st.choice.clock);
      var b := next.value;
      InvOf(w);
      TriggerOf(s, b);
      var e := s.runs[b].trigger.value;
      assert Next(w, st).workers[st.worker].phase == Sending(b, WebhookTask(e, b));
    }
  }

  lemma FewerBlocked(s: State, r: Id, e: Option<Id>, t: FollowUpClock, ref: Ref)
    requires BlockedOn(FollowUp(s, r, e, t).0, ref)
    ensures BlockedOn(s, ref)
  {
    hide FollowUp;
    var s' := FollowUp(s, r, e, t).0;
    var b :| b in s'.runs && s'.runs[b].ref == ref && s'.runs[b].status.Blocked?;
    FollowUpAddsNoBlocked(s, r, e, t, b);
  }

  /** No stuck follow-up. In any run with distinct delivery ids, after a finished run's follow-up step (queue
      configured, step not failing) no BLOCKED run of its ref remains unless a PENDING or RUNNING one is
      there; and if none was there before, the BLOCKED one is released and its own task goes out. */
  lemma NoStuckFollowUp(ws: seq<World>, steps: seq<Step>, i: nat, r: Id)
    requires Execution(ws, steps) && DistinctIds(steps) && i < |steps| && FollowsUp(ws[i], steps[i], r)
    ensures var (w, w', ref) := (ws[i], ws[i + 1], ws[i].db.runs[r].ref);
      && (BlockedOn(w'.db, ref) ==> ActiveOn(w'.db, ref))
      && (BlockedOn(w.db, ref) && !ActiveOn(w.db, ref) ==> exists b, e ::
            && b in w.db.runs && w.db.runs[b].ref == ref && w.db.runs[b].status.Blocked?
            && w.db.runs[b].trigger == Some(e) && b in w'.db.runs && w'.db.runs[b].status.Pending?
            && steps[i].worker in w'.workers && w'.workers[steps[i].worker].phase == Sending(b, WebhookTask(e, b)))
  {
    hide Sound, Enabled, Next, FollowUpsReady, LinksCurrent, BlockedOn, ActiveOn, DistinctIds;
    Safety.AlwaysSound(ws, steps, i);
    AlwaysReady(ws, steps, i);
    FollowUpStep(ws[i], steps[i], r);
  }

  // ---- whole runs ------------------------------------------------------------------------

  predicate Leaves(phase: Phase) { phase.Done? || phase.Sending? || phase.DispatchFailing? }

  /** The worker's task is a finished run of `ref`, and it has yet to do that run's follow-up. */
  predicate Owes(w: World, k: Id, ref: Ref) {
    && k in w.workers && !Leaves(w.workers[k].phase)
    && var r := w.workers[k].task.run;
    && r in w.db.runs && w.db.runs[r].ref == ref && IsTerminal(w.db.runs[r].status)
  }

  ghost predicate Covered(w: World, b: Id)
    requires b in w.db.runs
  {
    ActiveOn(w.db, w.db.runs[b].ref) || exists k :: Owes(w, k, w.db.runs[b].ref)
  }

  /** Behind every BLOCKED run there is an active run of its ref, or a worker that owes its follow-up. */
  ghost predicate AllCovered(w: World) {
    forall b :: b in w.db.runs && w.db.runs[b].status.Blocked? ==> Covered(w, b)
  }

  /** The steps that can lose a follow-up: cancelling a PENDING run, a failed follow-up send, a webhook task
      whose failure handler fails too, and a follow-up that raises or finds no queue. */
  predicate MayLose(w: World, st: Step) {
    match st
    case WithdrawManual(r) => Cancellable(w.db, r)
    case Work(k, c) => k in w.workers && (FailsSend(w.workers[k], c) || DropsDebt(w.queueConfigured, w.workers[k], c))
    case _ => false
  }

  predicate FailsSend(k: Worker, c: Choice) { k.phase.DispatchFailing? && !c.outcome.Error? }

  predicate DropsDebt(queueConfigured: bool, k: Worker, c: Choice) {
    || (k.phase.Failing? && c.outcome.Error? && k.task.WebhookTask?)
    || (k.phase.FollowingUp? && (c.outcome.Error? || !queueConfigured))
  }

  /** The worker has a task for `p` and has yet to do `p`'s follow-up. */
  predicate WorksOn(w: World, k: Id, p: Id) {
    k in w.workers && !Leaves(w.workers[k].phase) && w.workers[k].task.run == p
  }

  /** Such a step does lose one exactly when a BLOCKED run stands behind what it takes away and nothing else
      covers that run. */
  ghost predicate LosesFollowUp(w: World, st: Step) {
    MayLose(w, st) &&
    match st
    case WithdrawManual(r) =>
      BlockedOn(w.db, w.db.runs[r].ref) && forall k :: !Owes(w, k, w.db.runs[r].ref)
    case Work(k, c) =>
      if FailsSend(w.workers[k], c) then
        var p := w.workers[k].phase.next;
        && p in w.db.runs && IsActive(w.db.runs[p].status)
        && BlockedOn(w.db, w.db.runs[p].ref) && forall q :: !Owes(w, q, w.db.runs[p].ref) && !WorksOn(w, q, p)
      else
        var r := w.workers[k].task.run;
        && r in w.db.runs && IsTerminal(w.db.runs[r].status)
        && BlockedOn(w.db, w.db.runs[r].ref) && !ActiveOn(w.db, w.db.runs[r].ref)
        && forall q :: q != k ==> !Owes(w, q, w.db.runs[r].ref)
    case _ => false
  }

  /** Status and ref of `q` are as they were. */
  predicate SameStatus(runs: map<Id, Run>, runs': map<Id, Run>, q: Id) {
    q in runs ==> q in runs' && runs'[q].status == runs[q].status && runs'[q].ref == runs[q].ref
  }

  lemma BlockedForStatus(s: State, a: Arrival, e: Id, ref: Ref, q: Id)
    requires e in s.events && a.newRun !in s.runs && a.payload.request.Some?
    ensures SameStatus(s.runs, BlockedFor(s, a, e, ref).0.runs, q) && e in BlockedFor(s, a, e, ref).0.events
    ensures var runs := BlockedFor(s, a, e, ref).0.runs; q in runs && q !in s.runs ==> runs[q].ref == ref
  {
  }

  lemma ParkStatus(s: State, a: Arrival, e: Id, ref: Ref, q: Id)
    requires e in s.events && a.newRun !in s.runs && a.payload.request.Some?
    ensures SameStatus(s.runs, Park(s, a, e, ref).state.runs, q)
    ensures var runs := Park(s, a, e, ref).state.runs; q in runs && q !in s.runs ==> runs[q].ref == ref
  {
    hide BlockedFor;
    BlockedForStatus(s, a, e, ref, q);
  }

  lemma StartStatus(s: State, a: Arrival, e: Id, ref: Ref, q: Id)
    requires e in s.events && a.newRun !in s.runs && a.payload.request.Some?
    ensures SameStatus(s.runs, Start(s, a, e, ref).state.runs, q)
    ensures q in Start(s, a, e, ref).state.runs && q !in s.runs ==> Start(s, a, e, ref).state.runs[q].status.Pending?
  {
  }

  lemma JoinRuns(s: State, a: Arrival, e: Id, r: Id)
    requires e in s.events && r in s.runs
    ensures Join(s, a, e, r).state.runs == s.runs
  {
    hide DispatchEvent;
  }

  /** A delivery changes no run's status, and adds a BLOCKED run only behind a RUNNING one. */
  lemma AttachStatus(s: State, a: Arrival, d: Decision, e: Id, q: Id)
    requires e in s.events && a.newRun !in s.runs
    ensures SameStatus(s.runs, Attach(s, a, d, e).state.runs, q)
    ensures var s' := Attach(s, a, d, e).state;
      q in s'.runs && s'.runs[q].status.Blocked? && q !in s.runs ==> ActiveOn(s', s'.runs[q].ref)
  {
    hide ActiveOn, Join, Park, Start;
    if a.payload.request.Some? && (d.Queued? || d.DuplicateHead?) {
      var ref := RequestedRef(a.payload);
      var active := Latest(s.runs, ref, Pending);
      if active.Some? {
        JoinRuns(s, a, e, active.value);
      } else if d.Queued? {
        var running := Latest(s.runs, ref, Running);
        if running.Some? {
          ParkStatus(s, a, e, ref, q);
          ParkStatus(s, a, e, ref, running.value);
          ActiveIs(Park(s, a, e, ref).state, ref, running.value);
        } else {
          StartStatus(s, a, e, ref, q);
        }
      }
    }
  }

  lemma ProcessStatus(s: State, a: Arrival, q: Id)
    requires a.newRun !in s.runs
    ensures SameStatus(s.runs, Process(s, a).state.runs, q)
    ensures var s' := Process(s, a).state;
      q in s'.runs && s'.runs[q].status.Blocked? && q !in s.runs ==> ActiveOn(s', s'.runs[q].ref)
  {
    hide Record, Attach, EventOf, DecisionFor, ActiveOn;
    RecordFrame(s, a);
    AttachStatus(Record(s, a), a, DecisionFor(s, a), EventOf(s, a), q);
  }

  lemma RouteStatus(w: World, st: Step, q: Id)
    requires Sound(w) && Enabled(w, st) && !st.Deliver? && !st.Work? && !MayLose(w, st)
    ensures SameStatus(w.db.runs, Next(w, st).db.runs, q)
    ensures q in Next(w, st).db.runs && q !in w.db.runs ==> !Next(w, st).db.runs[q].status.Blocked?
  {
    hide Sound, Inv, Next, ManualAllowed;
    InvOf(w);
    KeysOf(w.db);
    RouteDb(w, st);
  }

  /** A worker's transaction leaves an active run active, or makes the worker's own run terminal and leaves
      the worker owing its follow-up. */
  ghost predicate WorkMoves(w: World, k: Worker, c: Choice, q: Id) {
    var db := DbAfter(w.db, w.queueConfigured, k, c);
    q in w.db.runs && IsActive(w.db.runs[q].status) ==>
      && q in db.runs && db.runs[q].ref == w.db.runs[q].ref
      && (IsActive(db.runs[q].status)
          || (q == k.task.run && IsTerminal(db.runs[q].status) && !Leaves(PhaseAfter(w, k, c))))
  }

  lemma FollowUpActive(s: State, r: Id, e: Option<Id>, t: FollowUpClock, q: Id)
    requires q in s.runs && IsActive(s.runs[q].status)
    ensures SameStatus(s.runs, FollowUp(s, r, e, t).0.runs, q)
  {
    hide NextRun, SameStatus;
    Still(s.runs, q);
    if Relevant(s, r, e) {
      NextRunActive(s, r, t, q);
      var (s1, next) := NextRun(s, r, t);
      if next.Some? { ClaimStatus(s, s1, next.value, t.enqueue, t.stale - RETRY_AFTER, q); }
    }
  }

  lemma Still(runs: map<Id, Run>, q: Id)
    ensures SameStatus(runs, runs, q)
  {
  }

  lemma NextRunActive(s: State, r: Id, t: FollowUpClock, q: Id)
    requires r in s.runs && q in s.runs && IsActive(s.runs[q].status)
    ensures SameStatus(s.runs, NextRun(s, r, t).0.runs, q)
  {
    hide AnotherActive, DispatchStale;
  }

  lemma ClaimStatus(s: State, s1: State, p: Id, at: Time, stale: Time, q: Id)
    requires SameStatus(s.runs, s1.runs, q)
    ensures SameStatus(s.runs, Claim(s1, p, at, stale).runs, q)
  {
  }

  lemma FailingMoves(w: World, id: Id, c: Choice, q: Id)
    requires CanWork(w, id, c) && w.workers[id].phase.Failing? && !MayLose(w, Work(id, c))
    ensures WorkMoves(w, w.workers[id], c, q)
  {
    hide FailWebhook;
    var k := w.workers[id];
    if k.task.WebhookTask? { FailWebhookRuns(w.db, k.task.event, k.task.run, c.clock.check); }
  }

  lemma FailWebhookRuns(s: State, e: Id, r: Id, now: Time)
    ensures var s' := FailWebhook(s, e, r, now);
      s'.runs == if r in s.runs && !IsTerminal(s.runs[r].status) then MarkFailed(s, r, SnapshotWriteFailed, now).runs
                 else s.runs
  {
    hide RestoreCursor;
    var s1 := if r in s.runs && !IsTerminal(s.runs[r].status) then MarkFailed(s, r, SnapshotWriteFailed, now) else s;
    if LinkedTo(s, e, r) { RestoreOnlyCursors(UpdateEvent(s1, e, Decision.Queued, EventStatus.Failed, None), e); }
  }

  lemma BuildMoves(w: World, id: Id, c: Choice, q: Id)
    requires CanWork(w, id, c) && !w.workers[id].phase.Failing? && !MayLose(w, Work(id, c))
    ensures WorkMoves(w, w.workers[id], c, q)
  {
    hide FollowUp, CommitOutcomeOf, Heads, TaskFor, FailWebhook, DispatchFailed;
    var k := w.workers[id];
    if k.phase.FollowingUp? && q in w.db.runs && IsActive(w.db.runs[q].status) {
      FollowUpActive(w.db, k.task.run, TaskEvent(k.task), c.clock, q);
    }
  }

  lemma WorkAddsNoBlocked(w: World, id: Id, c: Choice, b: Id)
    requires Sound(w) && CanWork(w, id, c)
    requires var runs := DbAfter(w.db, w.queueConfigured, w.workers[id], c).runs; b in runs && runs[b].status.Blocked?
    ensures b in w.db.runs && w.db.runs[b].status.Blocked?
  {
    hide Sound, Inv, CommitOutcomeOf, RestoreCursor, FollowUp, NextRun, FailWebhook, DispatchFailed;
    var k := w.workers[id];
    var r, now := k.task.run, c.clock.check;
    match k.phase
    case Failing => if k.task.WebhookTask? { FailWebhookRuns(w.db, k.task.event, r, now); }
    case DispatchFailing(next) => Leases.DispatchFailedRuns(w.db, next, now);
    case FollowingUp =>
      if !c.outcome.Error? && w.queueConfigured { FollowUpAddsNoBlocked(w.db, r, TaskEvent(k.task), c.clock, b); }
    case _ =>
  }

  lemma NextAddsBlocked(w: World, st: Step, b: Id)
    requires Sound(w) && Enabled(w, st) && !MayLose(w, st)
    requires var db := Next(w, st).db; b in db.runs && db.runs[b].status.Blocked?
    ensures var db := Next(w, st).db;
      (b in w.db.runs && w.db.runs[b].status.Blocked? && w.db.runs[b].ref == db.runs[b].ref)
      || ActiveOn(db, db.runs[b].ref)
  {
    hide Sound, Inv, ActiveOn, AfterDelivery, AfterWork, Process, DbAfter, Evolves, AddedBy, MovedBy;
    InvOf(w);
    KeysOf(w.db);
    if st.Deliver? {
      AfterDeliveryDb(w, st.arrival, st.version);
      ProcessStatus(w.db, st.arrival, b);
    } else if st.Work? {
      AfterWorkDb(w, st.worker, st.choice);
      WorkAddsNoBlocked(w, st.worker, st.choice, b);
      SameRef(w, st, b);
    } else {
      RouteStatus(w, st, b);
    }
  }

  lemma SameRef(w: World, st: Step, r: Id)
    requires Sound(w) && Enabled(w, st) && r in w.db.runs && r in Next(w, st).db.runs
    ensures Next(w, st).db.runs[r].ref == w.db.runs[r].ref
  {
    hide Sound, Inv, Enabled, Next, AddedBy, MovedBy, EventsKept, SnapshotsKept, LinkStep, TriggerStep, StatusStep;
    NextEvolves(w, st);
  }

  lemma NextActive(w: World, st: Step, q: Id)
    requires Sound(w) && Enabled(w, st) && !MayLose(w, st)
    requires q in w.db.runs && IsActive(w.db.runs[q].status)
    ensures var w' := Next(w, st);
      && q in w'.db.runs && w'.db.runs[q].ref == w.db.runs[q].ref
      && (IsActive(w'.db.runs[q].status) || (st.Work? && Owes(w', st.worker, w.db.runs[q].ref)))
  {
    hide Sound, Inv, AfterDelivery, AfterWork, Process, DbAfter, PhaseAfter;
    InvOf(w);
    KeysOf(w.db);
    if st.Deliver? {
      AfterDeliveryDb(w, st.arrival, st.version);
      ProcessStatus(w.db, st.arrival, q);
    } else if st.Work? {
      AfterWorkDb(w, st.worker, st.choice);
      WorkedPhase(w, st, st.worker);
      if w.workers[st.worker].phase.Failing? {
        FailingMoves(w, st.worker, st.choice, q);
      } else {
        BuildMoves(w, st.worker, st.choice, q);
      }
    } else {
      RouteStatus(w, st, q);
    }
  }

  /** A worker that owes a follow-up does it or goes on owing it. */
  lemma NextOwes(w: World, st: Step, k: Id, ref: Ref)
    requires Sound(w) && Enabled(w, st) && !MayLose(w, st) && Owes(w, k, ref)
    requires LinksCurrent(w.db, w.links) && FollowUpsReady(w.db)
    ensures Owes(Next(w, st), k, ref) || !BlockedOn(Next(w, st).db, ref) || ActiveOn(Next(w, st).db, ref)
  {
    hide Sound, Inv, Next, LinksCurrent, FollowUpsReady, PhaseAfter, ActiveOn, BlockedOn, Evolves, AddedBy, MovedBy;
    var r := w.workers[k].task.run;
    NextEvolves(w, st);
    StaysTerminal(w.db, Next(w, st).db, AddedBy(w, st), MovedBy(w, st), r);
    if !WorksFor(st, k) {
      WorkerStill(w, st, k);
    } else {
      WorkedPhase(w, st, k);
      if w.workers[k].phase.FollowingUp? {
        FollowUpStep(w, st, r);
      } else {
        OwingPhase(w, k, st.choice, ref);
      }
    }
  }

  lemma StaysTerminal(s: State, s': State, added: set<(Id, Id)>, moved: set<Id>, r: Id)
    requires Evolves(s, s', added, moved) && r in s.runs && IsTerminal(s.runs[r].status)
    ensures r in s'.runs && IsTerminal(s'.runs[r].status) && s'.runs[r].ref == s.runs[r].ref
  {
    hide EventsKept, SnapshotsKept, LinkStep, TriggerStep, StatusStep;
  }

  lemma OwingPhase(w: World, k: Id, c: Choice, ref: Ref)
    requires CanWork(w, k, c) && !MayLose(w, Work(k, c)) && Owes(w, k, ref)
    requires !w.workers[k].phase.FollowingUp?
    ensures !Leaves(PhaseAfter(w, w.workers[k], c))
  {
    hide FollowUp, TaskFor, CommitOutcomeOf, ScopeStillActive, Heads, EnsureScope;
  }

  lemma CoveredKept(w: World, st: Step)
    requires Sound(w) && Enabled(w, st) && !MayLose(w, st) && LinksCurrent(w.db, w.links) && FollowUpsReady(w.db)
    requires AllCovered(w)
    ensures AllCovered(Next(w, st))
  {
    hide Sound, Next, Enabled, LinksCurrent, FollowUpsReady, ActiveOn, BlockedOn, Owes, MayLose;
    var w' := Next(w, st);
    forall b | b in w'.db.runs && w'.db.runs[b].status.Blocked? ensures Covered(w', b) {
      var ref := w'.db.runs[b].ref;
      NextAddsBlocked(w, st, b);
      if !ActiveOn(w'.db, ref) {
        assert Covered(w, b);
        if ActiveOn(w.db, ref) {
          ActiveThen(w, st, ref);
        } else {
          var k :| Owes(w, k, ref);
          NextOwes(w, st, k, ref);
          BlockedIs(w'.db, b);
        }
      }
    }
  }

  lemma BlockedIs(s: State, b: Id)
    requires b in s.runs && s.runs[b].status.Blocked?
    ensures BlockedOn(s, s.runs[b].ref)
  {
  }

  lemma ActiveThen(w: World, st: Step, ref: Ref)
    requires Sound(w) && Enabled(w, st) && !MayLose(w, st) && ActiveOn(w.db, ref)
    ensures ActiveOn(Next(w, st).db, ref) || exists k :: Owes(Next(w, st), k, ref)
  {
    hide Sound, Next, Enabled, Owes;
    var q :| q in w.db.runs && w.db.runs[q].ref == ref && IsActive(w.db.runs[q].status);
    NextActive(w, st, q);
    if IsActive(Next(w, st).db.runs[q].status) { ActiveIs(Next(w, st).db, ref, q); }
  }

  // ---- the steps that can lose one, exactly ----------------------------------------------

  lemma CoveredIff(w: World, w': World)
    requires forall ref :: BlockedOn(w'.db, ref) ==> ActiveOn(w'.db, ref) || exists k :: Owes(w', k, ref)
    ensures AllCovered(w')
  {
    hide ActiveOn, Owes, BlockedOn;
    forall b | b in w'.db.runs && w'.db.runs[b].status.Blocked? ensures Covered(w', b) { BlockedIs(w'.db, b); }
  }

  lemma CoveredRef(w: World, ref: Ref)
    requires AllCovered(w) && BlockedOn(w.db, ref)
    ensures ActiveOn(w.db, ref) || exists k :: Owes(w, k, ref)
  {
    hide ActiveOn, Owes;
    var b :| b in w.db.runs && w.db.runs[b].ref == ref && w.db.runs[b].status.Blocked?;
    assert Covered(w, b);
  }

  /** Row `p`, which was active, is no longer; nothing else in the runs changed but marks on it. */
  ghost predicate LosesActive(s: State, s': State, p: Id) {
    && p in s.runs && IsActive(s.runs[p].status)
    && (forall q :: q in s'.runs <==> q in s.runs && (q != p || p in s'.runs))
    && (forall q :: q in s'.runs && q != p ==> s'.runs[q] == s.runs[q])
    && (p in s'.runs ==> s'.runs[p].status.Failed? && s'.runs[p].ref == s.runs[p].ref)
  }

  lemma RefsAfter(s: State, s': State, p: Id, ref: Ref)
    requires LosesActive(s, s', p) && OnePerRef(s.runs)
    ensures BlockedOn(s', ref) == BlockedOn(s, ref)
    ensures ActiveOn(s', ref) == (ActiveOn(s, ref) && ref != s.runs[p].ref)
  {
    if BlockedOn(s, ref) {
      var b :| b in s.runs && s.runs[b].ref == ref && s.runs[b].status.Blocked?;
      assert b in s'.runs && s'.runs[b].ref == ref && s'.runs[b].status.Blocked?;
    }
    if ActiveOn(s, ref) && ref != s.runs[p].ref {
      var q :| q in s.runs && s.runs[q].ref == ref && IsActive(s.runs[q].status);
      ActiveIs(s', ref, q);
    }
  }

  /** The runs, and the workers other than `id`, after a step that takes the active run `p` away. */
  ghost predicate TakesActive(w: World, w': World, p: Id, id: Option<Id>) {
    && LosesActive(w.db, w'.db, p) && w'.workers.Keys == w.workers.Keys
    && (forall k :: k in w.workers && Some(k) != id ==> w'.workers[k] == w.workers[k])
    && (id.Some? && id.value in w.workers ==> Leaves(w.workers[id.value].phase) && Leaves(w'.workers[id.value].phase))
  }

  lemma OwesAfter(w: World, w': World, p: Id, id: Option<Id>, k: Id, ref: Ref)
    requires TakesActive(w, w', p, id)
    ensures Owes(w', k, ref) <==>
      Owes(w, k, ref) || (p in w'.db.runs && WorksOn(w, k, p) && ref == w.db.runs[p].ref)
  {
  }

  lemma TakesExactly(w: World, w': World, p: Id, id: Option<Id>)
    requires AllCovered(w) && OnePerRef(w.db.runs) && TakesActive(w, w', p, id)
    ensures AllCovered(w') <==>
      var ref := w.db.runs[p].ref;
      BlockedOn(w.db, ref) ==> exists k :: Owes(w, k, ref) || (p in w'.db.runs && WorksOn(w, k, p))
  {
    hide AllCovered, Owes, WorksOn, ActiveOn, BlockedOn, LosesActive;
    assert p in w.db.runs by { TakenRow(w.db, w'.db, p); }
    var ref := w.db.runs[p].ref;
    if AllCovered(w') && BlockedOn(w.db, ref) {
      RefsAfter(w.db, w'.db, p, ref);
      CoveredRef(w', ref);
      var k :| Owes(w', k, ref);
      OwesAfter(w, w', p, id, k, ref);
    }
    if BlockedOn(w.db, ref) ==> exists k :: Owes(w, k, ref) || (p in w'.db.runs && WorksOn(w, k, p)) {
      forall x | BlockedOn(w'.db, x) ensures ActiveOn(w'.db, x) || exists k :: Owes(w', k, x) {
        RefsAfter(w.db, w'.db, p, x);
        CoveredRef(w, x);
        if x == ref {
          var k :| Owes(w, k, ref) || (p in w'.db.runs && WorksOn(w, k, p));
          OwesAfter(w, w', p, id, k, ref);
        } else if !ActiveOn(w.db, x) {
          var k :| Owes(w, k, x);
          OwesAfter(w, w', p, id, k, x);
        }
      }
      CoveredIff(w, w');
    }
  }

  lemma TakenRow(s: State, s': State, p: Id)
    requires LosesActive(s, s', p)
    ensures p in s.runs
  {
  }

  lemma WithdrawExactly(w: World, st: Step)
    requires Sound(w) && Enabled(w, st) && st.WithdrawManual? && MayLose(w, st) && AllCovered(w)
    ensures AllCovered(Next(w, st)) <==> !LosesFollowUp(w, st)
  {
    hide Sound, Inv, AllCovered, BlockedOn, Owes, ActiveOn;
    InvOf(w);
    CursorRecovery.RunsOf(w.db);
    WithdrawTakes(w, st);
    TakesExactly(w, Next(w, st), st.run, None);
  }

  lemma WithdrawTakes(w: World, st: Step)
    requires Enabled(w, st) && st.WithdrawManual? && Cancellable(w.db, st.run)
    ensures TakesActive(w, Next(w, st), st.run, None) && st.run in w.db.runs && st.run !in Next(w, st).db.runs
  {
    hide Links;
    RouteDb(w, st);
    assert Next(w, st).workers == w.workers;
  }

  /** A failed send always takes the run it was for out of PENDING: its trigger event is stored. */
  lemma FailedSendTakes(w: World, st: Step)
    requires Sound(w) && Enabled(w, st) && st.Work? && FailsSend(w.workers[st.worker], st.choice)
    requires var p := w.workers[st.worker].phase.next; p in w.db.runs && IsActive(w.db.runs[p].status)
    ensures var p := w.workers[st.worker].phase.next;
      TakesActive(w, Next(w, st), p, Some(st.worker)) && p in Next(w, st).db.runs
  {
    hide Sound, Inv, Next, LosesActive, DispatchFailed;
    InvOf(w);
    var k := w.workers[st.worker];
    var p, now := k.phase.next, st.choice.clock.check;
    TriggerOf(w.db, p);
    FailedSendRuns(w.db, p, now);
    FailedSendDb(w, st);
    OtherWorkers(w, st);
  }

  lemma FailedSendDb(w: World, st: Step)
    requires Enabled(w, st) && st.Work? && FailsSend(w.workers[st.worker], st.choice)
    ensures Next(w, st).db == DispatchFailed(w.db, w.workers[st.worker].phase.next, st.choice.clock.check)
    ensures st.worker in Next(w, st).workers && Next(w, st).workers[st.worker].phase.Done?
  {
    hide AfterWork, DispatchFailed;
    AfterWorkDb(w, st.worker, st.choice);
    WorkedPhase(w, st, st.worker);
  }

  lemma OtherWorkers(w: World, st: Step)
    requires Enabled(w, st) && st.Work?
    ensures Next(w, st).workers.Keys == w.workers.Keys
    ensures forall q :: q in w.workers && q != st.worker ==> Next(w, st).workers[q] == w.workers[q]
  {
    hide Transacted, PhaseAfter;
  }

  lemma FailedSendRuns(s: State, p: Id, now: Time)
    requires p in s.runs && IsActive(s.runs[p].status) && TriggerSound(s.events, s.runs[p])
    ensures LosesActive(s, DispatchFailed(s, p, now), p) && p in DispatchFailed(s, p, now).runs
  {
    hide RestoreCursor;
    if s.runs[p].trigger.Some? {
      var e := s.runs[p].trigger.value;
      RestoreOnlyCursors(
        UpdateEvent(MarkFailed(s, p, QueueDispatchFailed, now), e, Decision.Queued, EventStatus.Failed, Some(p)), e);
    }
  }

  /** A failed send for a run that is no longer active changes no status. */
  lemma LateFailedSend(s: State, p: Id, now: Time)
    requires p !in s.runs || IsTerminal(s.runs[p].status)
    ensures forall q :: SameStatus(s.runs, DispatchFailed(s, p, now).runs, q)
    ensures DispatchFailed(s, p, now).runs.Keys == s.runs.Keys
  {
    Leases.DispatchFailedRuns(s, p, now);
  }

  /** Runs of the same status and workers that owe the same leave the same covered. */
  lemma SameCover(w: World, w': World)
    requires AllCovered(w) && w'.db.runs.Keys == w.db.runs.Keys && forall q :: SameStatus(w.db.runs, w'.db.runs, q)
    requires forall k, ref :: Owes(w, k, ref) ==> Owes(w', k, ref)
    ensures AllCovered(w')
  {
    hide Owes;
    forall b | b in w'.db.runs && w'.db.runs[b].status.Blocked? ensures Covered(w', b) {
      assert SameStatus(w.db.runs, w'.db.runs, b);
      assert Covered(w, b);
      if ActiveOn(w.db, w.db.runs[b].ref) {
        var q :| q in w.db.runs && w.db.runs[q].ref == w.db.runs[b].ref && IsActive(w.db.runs[q].status);
        assert SameStatus(w.db.runs, w'.db.runs, q);
        ActiveIs(w'.db, w.db.runs[b].ref, q);
      }
    }
  }

  lemma FailedSendExactly(w: World, st: Step)
    requires Sound(w) && Enabled(w, st) && st.Work? && FailsSend(w.workers[st.worker], st.choice) && AllCovered(w)
    ensures AllCovered(Next(w, st)) <==> !LosesFollowUp(w, st)
  {
    hide Sound, Inv, AllCovered, BlockedOn, ActiveOn, Next, Owes, WorksOn, TakesActive;
    InvOf(w);
    CursorRecovery.RunsOf(w.db);
    var p := w.workers[st.worker].phase.next;
    if p in w.db.runs && IsActive(w.db.runs[p].status) {
      FailedSendTakes(w, st);
      TakesExactly(w, Next(w, st), p, Some(st.worker));
    } else {
      LateFailedSendCovers(w, st);
    }
  }

  lemma LateFailedSendCovers(w: World, st: Step)
    requires Sound(w) && Enabled(w, st) && st.Work? && FailsSend(w.workers[st.worker], st.choice) && AllCovered(w)
    requires var p := w.workers[st.worker].phase.next; p !in w.db.runs || !IsActive(w.db.runs[p].status)
    ensures AllCovered(Next(w, st))
  {
    hide Sound, Inv, AllCovered, Next, Owes, SameStatus, DispatchFailed;
    WorkerDispatched(w, st.worker);
    LateFailedSend(w.db, w.workers[st.worker].phase.next, st.choice.clock.check);
    FailedSendDb(w, st);
    LateSendOwes(w, st);
    SameCover(w, Next(w, st));
  }

  lemma LateSendOwes(w: World, st: Step)
    requires Enabled(w, st) && st.Work? && w.workers[st.worker].phase.DispatchFailing?
    requires var db := Next(w, st).db; forall q :: SameStatus(w.db.runs, db.runs, q)
    ensures forall k, ref :: Owes(w, k, ref) ==> Owes(Next(w, st), k, ref)
  {
    hide Next;
    forall k, ref | Owes(w, k, ref) ensures Owes(Next(w, st), k, ref) {
      WorkerStill(w, st, k);
      assert SameStatus(w.db.runs, Next(w, st).db.runs, w.workers[k].task.run);
    }
  }

  /** Dropping a worker's debt changes no row. */
  lemma DroppedDebt(w: World, st: Step)
    requires Enabled(w, st) && st.Work? && DropsDebt(w.queueConfigured, w.workers[st.worker], st.choice)
    ensures Next(w, st).db == w.db && Next(w, st).workers.Keys == w.workers.Keys
    ensures forall k, ref :: Owes(Next(w, st), k, ref) <==> Owes(w, k, ref) && k != st.worker
  {
    hide AfterWork, FollowUp, TaskFor;
    AfterWorkDb(w, st.worker, st.choice);
    WorkedPhase(w, st, st.worker);
    OtherWorkers(w, st);
  }

  lemma OwesMeans(w: World, k: Id, ref: Ref)
    requires Owes(w, k, ref)
    ensures k in w.workers
    ensures var r := w.workers[k].task.run; r in w.db.runs && w.db.runs[r].ref == ref && IsTerminal(w.db.runs[r].status)
  {
  }

  lemma DroppedDebtExactly(w: World, st: Step)
    requires Sound(w) && Enabled(w, st) && st.Work? && DropsDebt(w.queueConfigured, w.workers[st.worker], st.choice)
    requires AllCovered(w)
    ensures AllCovered(Next(w, st)) <==> !LosesFollowUp(w, st)
  {
    hide Sound, AllCovered, BlockedOn, ActiveOn, Next, Owes;
    DroppedDebt(w, st);
    var w' := Next(w, st);
    var r := w.workers[st.worker].task.run;
    if LosesFollowUp(w, st) && AllCovered(w') {
      CoveredRef(w', w.db.runs[r].ref);
      assert false;
    }
    if !LosesFollowUp(w, st) {
      forall ref | BlockedOn(w'.db, ref) ensures ActiveOn(w'.db, ref) || exists k :: Owes(w', k, ref) {
        CoveredRef(w, ref);
        if !ActiveOn(w.db, ref) {
          var k :| Owes(w, k, ref);
          OwesMeans(w, k, ref);
          if k == st.worker { var q :| q != k && Owes(w, q, ref); }
        }
      }
      CoveredIff(w, w');
    }
  }

  /** With permanent links, one step keeps every BLOCKED run covered if and only if it does not lose a follow-up. */
  lemma CoveredExactly(w: World, st: Step)
    requires Sound(w) && Enabled(w, st) && LinksCurrent(w.db, w.links) && FollowUpsReady(w.db) && AllCovered(w)
    ensures AllCovered(Next(w, st)) <==> !LosesFollowUp(w, st)
  {
    hide Sound, LinksCurrent, FollowUpsReady, AllCovered, Next, Cancellable;
    if !MayLose(w, st) {
      CoveredKept(w, st);
    } else if st.WithdrawManual? {
      WithdrawExactly(w, st);
    } else if FailsSend(w.workers[st.worker], st.choice) {
      FailedSendExactly(w, st);
    } else {
      DroppedDebtExactly(w, st);
    }
  }

  /** Nothing is left behind. In every world of a run with distinct delivery ids and no step that loses a
      follow-up, each BLOCKED run has a PENDING or RUNNING run on its ref, or a worker that still owes the
      follow-up of a finished run of its ref. */
  lemma {:induction false} NothingLeftBehind(ws: seq<World>, steps: seq<Step>, i: nat)
    requires Execution(ws, steps) && DistinctIds(steps) && i < |ws|
    requires forall m :: 0 <= m < i ==> !LosesFollowUp(ws[m], steps[m])
    ensures AllCovered(ws[i])
  {
    hide Sound, Next, Enabled, LinksCurrent, FollowUpsReady, AllCovered, DistinctIds, LosesFollowUp;
    if i == 0 {
      NoneBlocked(ws[0]);
    } else {
      NothingLeftBehind(ws, steps, i - 1);
      Safety.AlwaysSound(ws, steps, i - 1);
      AlwaysReady(ws, steps, i - 1);
      CoveredExactly(ws[i - 1], steps[i - 1]);
    }
  }

  lemma NoneBlocked(w: World)
    requires Initial(w)
    ensures AllCovered(w)
  {
  }

  /** Once every worker is done, each BLOCKED run has a PENDING or RUNNING run on its ref. */
  lemma IdleIsCovered(ws: seq<World>, steps: seq<Step>, i: nat, b: Id)
    requires Execution(ws, steps) && DistinctIds(steps) && i < |ws|
    requires forall m :: 0 <= m < i ==> !LosesFollowUp(ws[m], steps[m])
    requires forall k :: k in ws[i].workers ==> ws[i].workers[k].phase.Done?
    requires b in ws[i].db.runs && ws[i].db.runs[b].status.Blocked?
    ensures exists q ::
      && q in ws[i].db.runs && ws[i].db.runs[q].ref == ws[i].db.runs[b].ref
      && (ws[i].db.runs[q].status.Pending? || ws[i].db.runs[q].status.Running?)
  {
    hide Execution, DistinctIds, LosesFollowUp;
    NothingLeftBehind(ws, steps, i);
    assert Covered(ws[i], b);
  }

  /** The run a step of a losing kind acts for. */
  function ActsFor(w: World, st: Step): Option<Id> {
    match st
    case WithdrawManual(r) => Some(r)
    case Work(k, c) =>
      if k !in w.workers then None
      else if FailsSend(w.workers[k], c) then Some(w.workers[k].phase.next) else Some(w.workers[k].task.run)
    case _ => None
  }

  /** A test that needs no look at the workers: while the ref a step acts for has no BLOCKED run, it loses none. */
  lemma NoneToLose(w: World, st: Step)
    requires var r := ActsFor(w, st);
      r.Some? && r.value in w.db.runs ==> !BlockedOn(w.db, w.db.runs[r.value].ref)
    ensures !LosesFollowUp(w, st)
  {
  }
}
