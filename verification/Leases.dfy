/** The dispatch lease: a claim of a run holds for fifteen minutes unless a failed send gives it back. */
module Leases {
  import opened Model
  import opened Deciding
  import opened Transactions
  import opened Invariant
  import opened Effects
  import opened World
  import opened Reachable
  import opened Steps
  import Safety
  import opened RunHistory

  /** A successful claim: the run, the time its marker is set to, the time its old marker is tested against. */
  datatype Lease = Lease(run: Id, marked: Time, tested: Time)

  /** The claim a step makes: the webhook route's, or a follow-up's. */
  ghost function ClaimBy(w: World, st: Step): Option<Lease> {
    match st
    case ClaimDispatch(_, r, at) => if Claimable(w.db, r, at - RETRY_AFTER) then Some(Lease(r, at, at)) else None
    case Work(k, c) =>
      if k in w.workers && w.workers[k].phase.FollowingUp? && !c.outcome.Error? && w.queueConfigured then
        var next := FollowUp(w.db, w.workers[k].task.run, TaskEvent(w.workers[k].task), c.clock).1;
        if next.Some? then Some(Lease(next.value, c.clock.enqueue, c.clock.stale)) else None
      else None
    case _ => None
  }

  predicate GivesBack(st: Step, r: Id) { st.EnqueueFailure? && st.run == r }

  // ---- markers ---------------------------------------------------------------------------

  /** A PENDING run's marker stays, or becomes one that is no older than `t`. */
  predicate MarkerKept(runs: map<Id, Run>, runs': map<Id, Run>, r: Id, t: Time) {
    r in runs && r in runs' && runs[r].status.Pending? && runs'[r].status.Pending? ==>
      || runs'[r].dispatchedAt == runs[r].dispatchedAt
      || (runs'[r].dispatchedAt.Some? && runs'[r].dispatchedAt.value >= t)
  }

  lemma BlockedForMarker(s: State, a: Arrival, e: Id, ref: Ref, r: Id, t: Time)
    requires e in s.events && a.newRun !in s.runs && a.payload.request.Some?
    ensures MarkerKept(s.runs, BlockedFor(s, a, e, ref).0.runs, r, t) && e in BlockedFor(s, a, e, ref).0.events
  {
  }

  lemma ParkMarker(s: State, a: Arrival, e: Id, ref: Ref, r: Id, t: Time)
    requires e in s.events && a.newRun !in s.runs && a.payload.request.Some?
    ensures MarkerKept(s.runs, Park(s, a, e, ref).state.runs, r, t)
  {
    hide BlockedFor;
    BlockedForMarker(s, a, e, ref, r, t);
  }

  lemma AttachMarker(s: State, a: Arrival, d: Decision, e: Id, r: Id, t: Time)
    requires e in s.events && a.newRun !in s.runs
    ensures MarkerKept(s.runs, Attach(s, a, d, e).state.runs, r, t)
  {
    hide DispatchEvent, Park;
    if a.payload.request.Some? { ParkMarker(s, a, e, RequestedRef(a.payload), r, t); }
  }

  lemma ProcessMarker(s: State, a: Arrival, r: Id, t: Time)
    requires a.newRun !in s.runs
    ensures MarkerKept(s.runs, Process(s, a).state.runs, r, t)
  {
    hide Record, Attach, EventOf, DecisionFor;
    RecordFrame(s, a);
    AttachMarker(Record(s, a), a, DecisionFor(s, a), EventOf(s, a), r, t);
  }

  lemma RouteMarker(w: World, st: Step, r: Id, t: Time)
    requires Sound(w) && Enabled(w, st) && !st.Deliver? && !st.Work? && !GivesBack(st, r) && t <= w.clock
    ensures MarkerKept(w.db.runs, Next(w, st).db.runs, r, t)
  {
    hide Sound, Inv, Next, ManualAllowed, Cancellable;
    InvOf(w);
    KeysOf(w.db);
    RouteDb(w, st);
  }

  lemma FailureRuns(s: State, e: Id, r: Id, now: Time)
    ensures FailWebhook(s, e, r, now).runs == s.runs
      || (r in s.runs && !s.runs[r].status.Succeeded?
          && FailWebhook(s, e, r, now).runs == MarkFailed(s, r, SnapshotWriteFailed, now).runs)
  {
    hide RestoreCursor;
    var s1 := if r in s.runs && !IsTerminal(s.runs[r].status) then MarkFailed(s, r, SnapshotWriteFailed, now) else s;
    if LinkedTo(s, e, r) { RestoreOnlyCursors(UpdateEvent(s1, e, Decision.Queued, EventStatus.Failed, None), e); }
  }

  lemma DispatchFailedRuns(s: State, r: Id, now: Time)
    ensures DispatchFailed(s, r, now).runs == s.runs
      || DispatchFailed(s, r, now).runs == MarkFailed(s, r, QueueDispatchFailed, now).runs
  {
    hide RestoreCursor;
    if r in s.runs && s.runs[r].trigger.Some? && s.runs[r].trigger.value in s.events {
      var d := s.runs[r].trigger.value;
      RestoreOnlyCursors(
        UpdateEvent(MarkFailed(s, r, QueueDispatchFailed, now), d, Decision.Queued, EventStatus.Failed, Some(r)), d);
    }
  }

  lemma NextRunMarker(s: State, q: Id, c: FollowUpClock, r: Id)
    requires q in s.runs
    ensures var runs := NextRun(s, q, c).0.runs;
      r in runs ==> r in s.runs && (runs[r] == s.runs[r] || s.runs[r].status.Blocked?)
  {
    hide AnotherActive;
  }

  lemma FollowUpMarker(s: State, q: Id, e: Option<Id>, c: FollowUpClock, r: Id, t: Time)
    requires t <= c.enqueue
    ensures MarkerKept(s.runs, FollowUp(s, q, e, c).0.runs, r, t)
  {
    hide NextRun;
    if Relevant(s, q, e) { NextRunMarker(s, q, c, r); }
  }

  lemma WorkMarker(w: World, k: Worker, c: Choice, r: Id, t: Time)
    requires t <= c.clock.enqueue
    ensures MarkerKept(w.db.runs, DbAfter(w.db, w.queueConfigured, k, c).runs, r, t)
  {
    hide FailWebhook, DispatchFailed, FollowUp, CommitOutcomeOf;
    var q := k.task.run;
    match k.phase
    case Failing => if k.task.WebhookTask? { FailureRuns(w.db, k.task.event, q, c.clock.check); }
    case DispatchFailing(next) => DispatchFailedRuns(w.db, next, c.clock.check);
    case FollowingUp => FollowUpMarker(w.db, q, TaskEvent(k.task), c.clock, r, t);
    case _ =>
  }

  lemma NextMarker(w: World, st: Step, r: Id, t: Time)
    requires Sound(w) && Enabled(w, st) && !GivesBack(st, r) && t <= w.clock
    ensures MarkerKept(w.db.runs, Next(w, st).db.runs, r, t)
  {
    hide Sound, Inv, AfterDelivery, AfterWork, Process, DbAfter, MarkerKept;
    InvOf(w);
    KeysOf(w.db);
    if st.Deliver? {
      ProcessMarker(w.db, st.arrival, r, t);
      AfterDeliveryDb(w, st.arrival, st.version);
    } else if st.Work? {
      WorkMarker(w, w.workers[st.worker], st.choice, r, t);
      AfterWorkDb(w, st.worker, st.choice);
    } else {
      RouteMarker(w, st, r, t);
    }
  }

  // ---- time ------------------------------------------------------------------------------

  lemma RouteClock(w: World, st: Step)
    requires Enabled(w, st) && !st.Deliver? && !st.Work?
    ensures Next(w, st).clock >= w.clock
    ensures st.ClaimDispatch? ==> Next(w, st).clock == st.at
  {
    hide Links, Claim, CreateManual, EnqueueFailed, CancelManual, SaveScope, Heads, Claimable, ManualAllowed;
  }

  lemma NextClock(w: World, st: Step)
    requires Enabled(w, st)
    ensures Next(w, st).clock >= w.clock
    ensures st.ClaimDispatch? ==> Next(w, st).clock == st.at
    ensures st.Work? ==> Next(w, st).clock == st.choice.clock.stale
  {
    hide Process, DbAfter, PhaseAfter, Links, Heads, Announced, CommitOutcomeOf, Startable;
    if st.Deliver? {
      assert Next(w, st) == AfterDelivery(w, st.arrival, st.version);
    } else if st.Work? {
      assert Next(w, st) == AfterWork(w, st.worker, st.choice);
    } else {
      RouteClock(w, st);
    }
  }

  // ---- the lease -------------------------------------------------------------------------

  /** `r` has left BLOCKED, and while PENDING its marker is no older than `t`. */
  ghost predicate Leased(db: State, r: Id, t: Time) {
    && r in db.issued
    && (r in db.runs ==> !db.runs[r].status.Blocked?)
    && (r in db.runs && db.runs[r].status.Pending? ==>
          db.runs[r].dispatchedAt.Some? && db.runs[r].dispatchedAt.value >= t)
  }

  lemma LeaseKept(w: World, st: Step, r: Id, t: Time)
    requires Sound(w) && Enabled(w, st) && !GivesBack(st, r) && t <= w.clock && Leased(w.db, r, t)
    ensures Leased(Next(w, st).db, r, t)
  {
    hide Sound, Next, EventsKept, SnapshotsKept, LinkStep, TriggerStep, StatusStep, AddedBy, MovedBy;
    NextMarker(w, st, r, t);
    NextEvolves(w, st);
  }

  lemma FollowUpClaims(s: State, q: Id, e: Option<Id>, c: FollowUpClock)
    ensures var (s', next) := FollowUp(s, q, e, c);
      next.Some? ==>
        && next.value in s.runs && next.value in s'.runs
        && s'.runs[next.value].status.Pending? && s'.runs[next.value].dispatchedAt == Some(c.enqueue)
        && (s.runs[next.value].status.Blocked? || Claimable(s, next.value, c.stale - RETRY_AFTER))
  {
    hide AnotherActive;
  }

  ghost predicate ClaimedAt(s: State, s': State, claim: Lease) {
    && claim.run in s.runs && claim.run in s'.runs
    && s'.runs[claim.run].status.Pending? && s'.runs[claim.run].dispatchedAt == Some(claim.marked)
    && (s.runs[claim.run].status.Blocked? || Claimable(s, claim.run, claim.tested - RETRY_AFTER))
  }

  lemma WorkClaims(w: World, st: Step)
    requires Enabled(w, st) && st.Work? && ClaimBy(w, st).Some?
    ensures ClaimedAt(w.db, Next(w, st).db, ClaimBy(w, st).value) && ClaimBy(w, st).value.marked <= st.choice.clock.stale
  {
    hide AfterWork, FollowUp, Links, Claimable;
    var k := w.workers[st.worker];
    FollowUpClaims(w.db, k.task.run, TaskEvent(k.task), st.choice.clock);
    AfterWorkDb(w, st.worker, st.choice);
  }

  lemma RouteClaims(w: World, st: Step)
    requires Enabled(w, st) && st.ClaimDispatch? && ClaimBy(w, st).Some?
    ensures ClaimedAt(w.db, Next(w, st).db, ClaimBy(w, st).value) && ClaimBy(w, st).value.marked == st.at
  {
    hide Next;
    RouteDb(w, st);
  }

  lemma ClaimStep(w: World, st: Step)
    requires Sound(w) && Enabled(w, st) && ClaimBy(w, st).Some?
    ensures var claim := ClaimBy(w, st).value;
      && ClaimedAt(w.db, Next(w, st).db, claim)
      && Leased(Next(w, st).db, claim.run, claim.marked) && claim.marked <= Next(w, st).clock
  {
    hide Sound, Inv, Enabled, Next, AddedBy, MovedBy, Evolves, FollowUp;
    AlwaysIssued(w, st);
    NextClock(w, st);
    if st.Work? { WorkClaims(w, st); } else { RouteClaims(w, st); }
  }

  lemma AlwaysIssued(w: World, st: Step)
    requires Sound(w) && Enabled(w, st)
    ensures Next(w, st).db.runs.Keys <= Next(w, st).db.issued
  {
    hide Sound, Inv, Enabled, Next;
    Safety.NextSound(w, st);
    InvOf(Next(w, st));
    KeysOf(Next(w, st).db);
  }

  lemma {:induction false} LeaseLasts(ws: seq<World>, steps: seq<Step>, i: nat, j: nat, r: Id, t: Time)
    requires Execution(ws, steps) && i <= j < |ws| && Leased(ws[i].db, r, t) && t <= ws[i].clock
    requires forall m :: i <= m < j ==> !GivesBack(steps[m], r)
    ensures Leased(ws[j].db, r, t) && t <= ws[j].clock
    decreases j - i
  {
    hide Sound, Next, Enabled, Leased;
    if i < j {
      LeaseLasts(ws, steps, i, j - 1, r, t);
      Safety.AlwaysSound(ws, steps, j - 1);
      NextClock(ws[j - 1], steps[j - 1]);
      LeaseKept(ws[j - 1], steps[j - 1], r, t);
    }
  }

  /** Two successful claims of one run, with no failed send of it between them, are fifteen minutes apart:
      the second tests a clock reading at least that much later than the first one's marker. On the webhook
      route the two readings are one, so the markers themselves are that far apart. */
  lemma ClaimsFarApart(ws: seq<World>, steps: seq<Step>, i: nat, j: nat)
    requires Execution(ws, steps) && i < j < |steps|
    requires ClaimBy(ws[i], steps[i]).Some? && ClaimBy(ws[j], steps[j]).Some?
    requires ClaimBy(ws[i], steps[i]).value.run == ClaimBy(ws[j], steps[j]).value.run
    requires forall m :: i < m < j ==> !GivesBack(steps[m], ClaimBy(ws[i], steps[i]).value.run)
    ensures ClaimBy(ws[j], steps[j]).value.tested - ClaimBy(ws[i], steps[i]).value.marked >= 900_000_000
    ensures steps[j].ClaimDispatch? ==>
      ClaimBy(ws[j], steps[j]).value.marked - ClaimBy(ws[i], steps[i]).value.marked >= 900_000_000
  {
    hide Sound, Next, Enabled, ClaimBy;
    var claim := ClaimBy(ws[i], steps[i]).value;
    Safety.AlwaysSound(ws, steps, i);
    Safety.AlwaysSound(ws, steps, j);
    ClaimStep(ws[i], steps[i]);
    ClaimStep(ws[j], steps[j]);
    LeaseLasts(ws, steps, i + 1, j, claim.run, claim.marked);
    if steps[j].ClaimDispatch? { OneReading(ws[j], steps[j]); }
  }

  lemma OneReading(w: World, st: Step)
    requires st.ClaimDispatch? && ClaimBy(w, st).Some?
    ensures ClaimBy(w, st).value.marked == ClaimBy(w, st).value.tested == st.at
  {
  }

  /** Whenever processing a delivery asks for an enqueue, the route's claim that follows it succeeds: the
      strict staleness tests of the service imply the inclusive test of the claim. */
  lemma ClaimAfterProcess(w: World, a: Arrival, version: Option<nat>, at: Time)
    requires Sound(w) && CanDeliver(w, a, version) && Process(w.db, a).enqueue && at >= a.clock.dispatch
    ensures var p := Process(w.db, a);
      && p.dispatchEvent.Some? && p.run.Some?
      && var claim := ClaimDispatch(p.dispatchEvent.value, p.run.value, at);
      && Enabled(AfterDelivery(w, a, version), claim)
      && ClaimBy(AfterDelivery(w, a, version), claim) == Some(Lease(p.run.value, at, at))
  {
    hide Sound, Inv, CanDeliver, Process, RowOf, Announced;
    InvOf(w);
    DeliveryAdmissible(w, a, version);
    ProcessShape(w.db, a);
    AfterDeliveryDb(w, a, version);
  }

  /** A failed send gives the run back at once: the next claim succeeds, and a repeat of the delivery is a
      retry that the service will dispatch again. */
  lemma FailedSendGivesBack(s: State, e: Id, r: Id, at: Time)
    requires e in s.events && r in s.runs && s.runs[r].status.Pending?
    ensures var s' := EnqueueFailed(s, e, r);
      && Claimable(s', r, at - RETRY_AFTER) && Retryable(s', e, s.runs[r].ref.conn, at)
      && (s.runs[r].trigger == Some(e) ==> DispatchEvent(s', r, at) == Some(e))
  {
  }
}
