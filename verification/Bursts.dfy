/** Latest wins, whatever is interleaved: deliveries of one ref behind a RUNNING run, with any other steps of any
    route or worker between them. */
module Bursts {
  import opened Model
  import opened Deciding
  import opened Transactions
  import opened Invariant
  import Effects
  import opened World
  import opened Reachable
  import opened Steps
  import opened Safety
  import opened RunHistory
  import Leases
  import FollowUps
  import DistinctDeliveries
  import Released
  import opened Coalescing

  predicate AsksRef(a: Arrival, ref: Ref) { a.payload.request.Some? && RequestedRef(a.payload) == ref }

  /** A delivery that asks for a sync of `ref`. */
  predicate Asks(st: Step, ref: Ref) { st.Deliver? && AsksRef(st.arrival, ref) }

  predicate RunningOn(s: State, ref: Ref, r: Id) { r in s.runs && s.runs[r].ref == ref && s.runs[r].status.Running? }

  predicate BlockedRun(s: State, ref: Ref, b: Id) { b in s.runs && s.runs[b].ref == ref && s.runs[b].status.Blocked? }

  // ---- a step that does not ask for the ref ----------------------------------------------

  predicate SameRun(s: State, s': State, b: Id) { b in s.runs && b in s'.runs && s'.runs[b] == s.runs[b] }

  lemma BlockedForHolds(s: State, a: Arrival, e: Id, ref: Ref, b: Id)
    requires b in s.runs && s.runs[b].ref != ref && a.newRun !in s.runs && a.payload.request.Some?
    ensures SameRun(s, BlockedFor(s, a, e, ref).0, b)
  {
  }

  lemma ParkHolds(s: State, a: Arrival, e: Id, ref: Ref, b: Id)
    requires b in s.runs && s.runs[b].ref != ref && a.newRun !in s.runs && a.payload.request.Some? && e in s.events
    ensures SameRun(s, Park(s, a, e, ref).state, b)
  {
    hide BlockedFor;
    BlockedForHolds(s, a, e, ref, b);
    Released.BlockedForStatus(s, a, e, ref, b);
  }

  lemma StartHolds(s: State, a: Arrival, e: Id, ref: Ref, b: Id)
    requires b in s.runs && a.newRun !in s.runs && a.payload.request.Some? && e in s.events
    ensures SameRun(s, Start(s, a, e, ref).state, b)
  {
  }

  lemma JoinHolds(s: State, a: Arrival, e: Id, r: Id, b: Id)
    requires b in s.runs && e in s.events && r in s.runs
    ensures SameRun(s, Join(s, a, e, r).state, b)
  {
    hide Join;
    Released.JoinRuns(s, a, e, r);
  }

  lemma UnchangedRun(s: State, b: Id)
    requires b in s.runs
    ensures SameRun(s, s, b)
  {
  }

  lemma AttachHolds(s: State, a: Arrival, d: Decision, e: Id, b: Id)
    requires e in s.events && a.newRun !in s.runs && b in s.runs && !AsksRef(a, s.runs[b].ref)
    ensures SameRun(s, Attach(s, a, d, e).state, b)
  {
    hide Park, Join, Start, SameRun;
    UnchangedRun(s, b);
    if a.payload.request.Some? {
      var ref := RequestedRef(a.payload);
      ParkHolds(s, a, e, ref, b);
      StartHolds(s, a, e, ref, b);
      var active := Latest(s.runs, ref, Pending);
      if active.Some? { JoinHolds(s, a, e, active.value, b); }
    }
  }

  lemma ProcessHolds(s: State, a: Arrival, b: Id)
    requires a.newRun !in s.runs && b in s.runs && !AsksRef(a, s.runs[b].ref)
    ensures SameRun(s, Process(s, a).state, b)
  {
    hide Record, Attach, EventOf, DecisionFor;
    Effects.RecordFrame(s, a);
    AttachHolds(Record(s, a), a, DecisionFor(s, a), EventOf(s, a), b);
  }

  lemma RouteHolds(w: World, st: Step, b: Id)
    requires Sound(w) && Enabled(w, st) && !st.Deliver? && !st.Work? && b in w.db.runs && w.db.runs[b].status.Blocked?
    ensures SameRun(w.db, Next(w, st).db, b)
  {
    hide Sound, Inv, Next, ManualAllowed;
    InvOf(w);
    KeysOf(w.db);
    RouteDb(w, st);
    if st.EnqueueFailure? { FollowUps.DispatchEvents(w, st.event, st.run); }
  }

  /** While a run of the ref is RUNNING, no follow-up releases the BLOCKED one. */
  lemma FollowUpHolds(s: State, r: Id, e: Option<Id>, t: FollowUpClock, b: Id, q: Id)
    requires b in s.runs && s.runs[b].status.Blocked? && RunningOn(s, s.runs[b].ref, q)
    ensures SameRun(s, FollowUp(s, r, e, t).0, b)
  {
    hide DispatchStale;
    assert AnotherActive(s, b);
  }

  lemma WorkHolds(w: World, id: Id, c: Choice, b: Id, q: Id)
    requires Sound(w) && CanWork(w, id, c)
    requires b in w.db.runs && w.db.runs[b].status.Blocked? && RunningOn(w.db, w.db.runs[b].ref, q)
    ensures SameRun(w.db, DbAfter(w.db, w.queueConfigured, w.workers[id], c), b)
  {
    hide Sound, Inv, MarkRunning, MarkFailed, CommitSnapshot, EnsureScope, FollowUp, FailWebhook, DispatchFailed,
      CompleteEvent, SameRun;
    var k := w.workers[id];
    var r, now := k.task.run, c.clock.check;
    FollowUps.WorkerDispatched(w, id);
    OtherRunHolds(w.db, r, c, b);
    BuildHolds(w.db, r, k.phase, c, b);
    match k.phase
    case Failing => if k.task.WebhookTask? { FailWebhookHolds(w.db, k.task.event, r, now, b); }
    case Built(x) => if k.task.WebhookTask? { CompleteHolds(w.db, k.task.event, r, x, b); }
    case DispatchFailing(next) => DispatchFailedHolds(w.db, next, now, b);
    case FollowingUp => FollowUpHolds(w.db, r, TaskEvent(k.task), c.clock, b, q);
    case _ =>
  }

  lemma OtherRunHolds(s: State, r: Id, c: Choice, b: Id)
    requires b in s.runs && b != r
    ensures SameRun(s, s, b) && SameRun(s, MarkRunning(s, r, c.clock.check), b)
    ensures forall code :: SameRun(s, MarkFailed(s, r, code, c.clock.check), b)
    ensures SameRun(s, EnsureScope(s, ConnOf(s, r), c.newId), b)
  {
  }

  lemma BuildHolds(s: State, r: Id, phase: Phase, c: Choice, b: Id)
    requires b in s.runs && b != r
    ensures phase.Committing? ==>
      SameRun(s, CommitSnapshot(s, r, phase.scope, phase.commit, c.newId, c.clock.check), b)
  {
    hide CommitOutcomeOf;
  }

  lemma CompleteHolds(s: State, e: Id, r: Id, x: Id, b: Id)
    requires b in s.runs
    ensures SameRun(s, CompleteEvent(s, e, r, x), b)
  {
  }

  lemma FailWebhookHolds(s: State, e: Id, r: Id, now: Time, b: Id)
    requires b in s.runs && b != r
    ensures SameRun(s, FailWebhook(s, e, r, now), b)
  {
    hide FailWebhook;
    Released.FailWebhookRuns(s, e, r, now);
  }

  lemma DispatchFailedHolds(s: State, p: Id, now: Time, b: Id)
    requires b in s.runs && b != p
    ensures SameRun(s, DispatchFailed(s, p, now), b)
  {
    hide DispatchFailed;
    Leases.DispatchFailedRuns(s, p, now);
  }

  /** A BLOCKED run behind a RUNNING one is changed by nothing but a delivery that asks for its ref. */
  lemma NextHolds(w: World, st: Step, b: Id, q: Id)
    requires Sound(w) && Enabled(w, st)
    requires b in w.db.runs && w.db.runs[b].status.Blocked? && RunningOn(w.db, w.db.runs[b].ref, q)
    requires !Asks(st, w.db.runs[b].ref)
    ensures SameRun(w.db, Next(w, st).db, b)
  {
    hide Sound, Inv, AfterDelivery, AfterWork, Process, DbAfter;
    InvOf(w);
    KeysOf(w.db);
    if st.Deliver? {
      AfterDeliveryDb(w, st.arrival, st.version);
      ProcessHolds(w.db, st.arrival, b);
    } else if st.Work? {
      AfterWorkDb(w, st.worker, st.choice);
      WorkHolds(w, st.worker, st.choice, b, q);
    } else {
      RouteHolds(w, st, b);
    }
  }

  // ---- whole segments --------------------------------------------------------------------

  /** From world `i` to world `j` run `r` is RUNNING on `ref`, and every delivery that asks for the ref is new and
      queued. Any other steps may come between. */
  ghost predicate Bursting(ws: seq<World>, steps: seq<Step>, i: nat, j: nat, ref: Ref, r: Id)
    requires |ws| == |steps| + 1
  {
    && i <= j < |ws| && RunningOn(ws[i].db, ref, r) && RunningOn(ws[j].db, ref, r)
    && forall k :: i <= k < j && Asks(steps[k], ref) ==>
         Known(ws[k].db, steps[k].arrival.payload.key).None? && DecisionFor(ws[k].db, steps[k].arrival).Queued?
  }

  predicate LastAsk(steps: seq<Step>, i: nat, j: nat, ref: Ref, m: nat)
    requires j <= |steps|
  {
    i <= m < j && Asks(steps[m], ref) && forall k :: m < k < j ==> !Asks(steps[k], ref)
  }

  /** The ref's one BLOCKED run, triggered by delivery `m`; every delivery so far was linked to it. */
  ghost predicate Gathered(w: World, steps: seq<Step>, i: nat, j: nat, ref: Ref, m: nat, b: Id)
    requires j <= |steps|
  {
    && BlockedRun(w.db, ref, b) && OnlyBlocked(w.db, ref, b)
    && m < j && Asks(steps[m], ref) && w.db.runs[b].trigger == Some(steps[m].arrival.newEvent)
    && forall k :: i <= k < j && Asks(steps[k], ref) ==> (steps[k].arrival.newEvent, b) in w.links
  }

  lemma RunsThrough(ws: seq<World>, steps: seq<Step>, i: nat, k: nat, j: nat, ref: Ref, r: Id)
    requires Execution(ws, steps) && i <= k <= j < |ws| && RunningOn(ws[i].db, ref, r) && RunningOn(ws[j].db, ref, r)
    ensures RunningOn(ws[k].db, ref, r)
  {
    hide Execution, Inv, Sound;
    AlwaysSound(ws, steps, i);
    InvOf(ws[i]);
    KeysOf(ws[i].db);
    AlwaysSound(ws, steps, k);
    InvOf(ws[k]);
    KeysOf(ws[k].db);
    StatusOnlyForward(ws, steps, i, k);
    StatusOnlyForward(ws, steps, k, j);
  }

  /** Event `e` triggers, and was linked to, the one BLOCKED run of the ref, and to the one there was. */
  ghost predicate Triggers(w: World, w': World, ref: Ref, e: Id, b: Id) {
    && BlockedRun(w'.db, ref, b) && OnlyBlocked(w'.db, ref, b) && w'.db.runs[b].trigger == Some(e)
    && (e, b) in w'.links && forall q :: BlockedRun(w.db, ref, q) ==> q == b
  }

  /** A delivery that asks for the ref becomes the trigger of the BLOCKED run that is there, or of a new one. */
  lemma AskStep(w: World, st: Step, ref: Ref, r: Id)
    requires Sound(w) && Enabled(w, st) && Asks(st, ref) && RunningOn(w.db, ref, r)
    requires Known(w.db, st.arrival.payload.key).None? && DecisionFor(w.db, st.arrival).Queued?
    ensures exists b :: Triggers(w, Next(w, st), ref, st.arrival.newEvent, b)
  {
    hide Sound, Inv, AfterDelivery, Process, DecisionFor, OnlyBlocked, Links, CursorAt, Superseded;
    var a := st.arrival;
    InvOf(w);
    KeysOf(w.db);
    DeliveryAdmissible(w, a, st.version);
    AfterDeliveryDb(w, a, st.version);
    ParkStep(w.db, a, ref, r);
    var s' := Process(w.db, a).state;
    var b := Process(w.db, a).run.value;
    OnlyOneBlocked(s', ref, b);
    assert LinkedTo(s', a.newEvent, b);
    NextLinks(w, st, a.newEvent, b);
    forall q | BlockedRun(w.db, ref, q) ensures q == b {
      Released.ProcessStatus(w.db, a, q);
      IsOnly(s', ref, b, q);
    }
    assert Triggers(w, Next(w, st), ref, a.newEvent, b);
  }

  lemma IsOnly(s: State, ref: Ref, b: Id, q: Id)
    requires OnlyBlocked(s, ref, b) && BlockedRun(s, ref, q)
    ensures q == b
  {
  }

  lemma NextLinks(w: World, st: Step, e: Id, b: Id)
    requires Sound(w) && Enabled(w, st) && LinkedTo(Next(w, st).db, e, b)
    ensures (e, b) in Next(w, st).links
  {
    hide Enabled, Inv, Next, LinksSound, MessagesSound, AnnouncedSound, BegunSound, BuiltSound, WorkersSound,
      PayloadsSound;
    NextSound(w, st);
  }

  lemma LinksGrow(w: World, st: Step)
    requires Sound(w) && Enabled(w, st)
    ensures w.links <= Next(w, st).links
  {
    hide Sound, Enabled, Next;
    NextHistory(w, st);
  }

  lemma GatheredStep(w: World, steps: seq<Step>, i: nat, j: nat, ref: Ref, r: Id, m: nat, b: Id)
    requires i <= j < |steps| && Sound(w) && Enabled(w, steps[j]) && RunningOn(w.db, ref, r)
    requires Gathered(w, steps, i, j, ref, m, b)
    requires Asks(steps[j], ref) ==>
      Known(w.db, steps[j].arrival.payload.key).None? && DecisionFor(w.db, steps[j].arrival).Queued?
    ensures Gathered(Next(w, steps[j]), steps, i, j + 1, ref, if Asks(steps[j], ref) then j else m, b)
  {
    hide Sound, Inv, Enabled, Next, DecisionFor, OnlyBlocked;
    LinksGrow(w, steps[j]);
    if Asks(steps[j], ref) {
      AskStep(w, steps[j], ref, r);
    } else {
      NextHolds(w, steps[j], b, r);
      NextSound(w, steps[j]);
      InvOf(Next(w, steps[j]));
      OnlyOneBlocked(Next(w, steps[j]).db, ref, b);
    }
  }

  /** In any run of the protocol, while a run is RUNNING on a ref and every delivery that asks for the ref is new and
      queued, with any other steps between them, the ref has one BLOCKED run: the last delivery triggers it, and every
      one of them was linked to it. */
  lemma {:induction false} LatestWinsInterleaved(
    ws: seq<World>, steps: seq<Step>, i: nat, j: nat, ref: Ref, r: Id, m: nat)
    requires Execution(ws, steps) && Bursting(ws, steps, i, j, ref, r) && LastAsk(steps, i, j, ref, m)
    ensures exists b :: Gathered(ws[j], steps, i, j, ref, m, b)
    decreases j - i
  {
    hide Sound, Enabled, Next, Gathered, AsksRef, DecisionFor, Known, RunningOn;
    var n := j - 1;
    RunsThrough(ws, steps, i, n, j, ref, r);
    AlwaysSound(ws, steps, n);
    if earlier :| LastAsk(steps, i, n, ref, earlier) {
      LatestWinsInterleaved(ws, steps, i, n, ref, r, earlier);
      var b :| Gathered(ws[n], steps, i, n, ref, earlier, b);
      GatheredStep(ws[n], steps, i, n, ref, r, earlier, b);
    } else {
      NoEarlier(steps, i, n, ref);
      AskStep(ws[n], steps[n], ref, r);
      FirstGathered(ws[n], ws[j], steps, i, j, ref, n, steps[n].arrival.newEvent);
    }
  }

  lemma {:induction false} NoEarlier(steps: seq<Step>, i: nat, j: nat, ref: Ref)
    requires i <= j <= |steps| && forall m :: !LastAsk(steps, i, j, ref, m)
    ensures forall k :: i <= k < j ==> !Asks(steps[k], ref)
  {
    hide Asks;
    if k :| i <= k < j && Asks(steps[k], ref) { LastOf(steps, i, j, ref, k); }
  }

  lemma {:induction false} LastOf(steps: seq<Step>, i: nat, j: nat, ref: Ref, k: nat)
    requires i <= k < j <= |steps| && Asks(steps[k], ref)
    ensures exists m :: LastAsk(steps, i, j, ref, m)
    decreases j - k
  {
    hide Asks;
    if n :| k < n < j && Asks(steps[n], ref) {
      LastOf(steps, i, j, ref, n);
    } else {
      assert LastAsk(steps, i, j, ref, k);
    }
  }

  lemma FirstGathered(before: World, w: World, steps: seq<Step>, i: nat, j: nat, ref: Ref, m: nat, e: Id)
    requires i <= m < j <= |steps| && j == m + 1 && Asks(steps[m], ref) && e == steps[m].arrival.newEvent
    requires forall k :: i <= k < m ==> !Asks(steps[k], ref)
    requires exists b :: Triggers(before, w, ref, e, b)
    ensures exists b :: Gathered(w, steps, i, j, ref, m, b)
  {
    hide AsksRef, OnlyBlocked;
    var b :| Triggers(before, w, ref, e, b);
    assert Gathered(w, steps, i, j, ref, m, b);
  }

  /** With distinct delivery ids the last delivery is VALIDATED on that run, so that a follow-up can release it, and
      every earlier one is still linked to it. */
  lemma BurstReleasable(ws: seq<World>, steps: seq<Step>, i: nat, j: nat, ref: Ref, r: Id, m: nat, b: Id)
    requires Execution(ws, steps) && DistinctDeliveries.DistinctIds(steps) && Bursting(ws, steps, i, j, ref, r)
    requires LastAsk(steps, i, j, ref, m) && Gathered(ws[j], steps, i, j, ref, m, b)
    ensures FollowUps.Releasable(ws[j].db, b)
    ensures forall k :: i <= k < j && Asks(steps[k], ref) ==> LinkedTo(ws[j].db, steps[k].arrival.newEvent, b)
  {
    hide Execution, DistinctDeliveries.DistinctIds, AsksRef, DecisionFor, Known;
    DistinctDeliveries.AlwaysReady(ws, steps, j);
    FollowUps.ReadyOf(ws[j].db, b);
  }

  // ---- the cursor ------------------------------------------------------------------------

  predicate HasKey(s: State, e: Id, key: CursorKey) {
    e in s.events && CursorKey(s.events[e].delivery.conn, s.events[e].targetKey) == key
  }

  /** The steps that may move the cursor `key`: a delivery for it, and the failure of a task or of a send whose event
      has that key. */
  predicate MayMoveCursor(w: World, st: Step, key: CursorKey) {
    match st
    case Deliver(a, _) => CursorKey(a.payload.key.conn, a.payload.targetKey) == key
    case Work(k, c) =>
      && k in w.workers && !c.outcome.Error?
      && var p := w.workers[k];
      || (p.phase.Failing? && p.task.WebhookTask? && HasKey(w.db, p.task.event, key))
      || (p.phase.DispatchFailing? && p.phase.next in w.db.runs && w.db.runs[p.phase.next].trigger.Some?
          && HasKey(w.db, w.db.runs[p.phase.next].trigger.value, key))
    case _ => false
  }

  predicate SameCursor(s: State, s': State, key: CursorKey) {
    (key in s'.cursors <==> key in s.cursors) && (key in s.cursors ==> s'.cursors[key] == s.cursors[key])
  }

  lemma ParkCursors(s: State, a: Arrival, e: Id, ref: Ref)
    requires a.payload.request.Some? && e in s.events && a.newRun !in s.runs
    ensures Park(s, a, e, ref).state.cursors
      == s.cursors[CursorKey(a.payload.key.conn, a.payload.targetKey) := Cursor(HeadOrEmpty(a.payload), e)]
  {
  }

  lemma AttachCursor(s: State, a: Arrival, d: Decision, e: Id, key: CursorKey)
    requires CursorKey(a.payload.key.conn, a.payload.targetKey) != key && a.newRun !in s.runs && e in s.events
    ensures SameCursor(s, Attach(s, a, d, e).state, key)
  {
    hide Park, DispatchEvent;
    if a.payload.request.Some? { ParkCursors(s, a, e, RequestedRef(a.payload)); }
  }

  lemma ProcessCursor(s: State, a: Arrival, key: CursorKey)
    requires CursorKey(a.payload.key.conn, a.payload.targetKey) != key && a.newRun !in s.runs
    ensures SameCursor(s, Process(s, a).state, key)
  {
    hide Record, EventOf, DecisionFor, Attach;
    Effects.RecordFrame(s, a);
    AttachCursor(Record(s, a), a, DecisionFor(s, a), EventOf(s, a), key);
  }

  lemma RestoreCursorOnly(s: State, failed: Id, key: CursorKey)
    requires failed in s.events && !HasKey(s, failed, key)
    ensures SameCursor(s, RestoreCursor(s, failed), key)
  {
  }

  lemma FailWebhookCursor(s: State, e: Id, r: Id, now: Time, key: CursorKey)
    requires !HasKey(s, e, key)
    ensures SameCursor(s, FailWebhook(s, e, r, now), key)
  {
    hide RestoreCursor;
    var s1 := if r in s.runs && !IsTerminal(s.runs[r].status) then MarkFailed(s, r, SnapshotWriteFailed, now) else s;
    if LinkedTo(s, e, r) { RestoreCursorOnly(UpdateEvent(s1, e, Decision.Queued, EventStatus.Failed, None), e, key); }
  }

  lemma DispatchFailedCursor(s: State, p: Id, now: Time, key: CursorKey)
    requires p in s.runs && s.runs[p].trigger.Some? ==> !HasKey(s, s.runs[p].trigger.value, key)
    ensures SameCursor(s, DispatchFailed(s, p, now), key)
  {
    hide RestoreCursor;
    if p in s.runs && s.runs[p].trigger.Some? && s.runs[p].trigger.value in s.events {
      var s1, e := MarkFailed(s, p, QueueDispatchFailed, now), s.runs[p].trigger.value;
      RestoreCursorOnly(UpdateEvent(s1, e, Decision.Queued, EventStatus.Failed, Some(p)), e, key);
    }
  }

  lemma FollowUpCursors(s: State, r: Id, e: Option<Id>, t: FollowUpClock)
    ensures FollowUp(s, r, e, t).0.cursors == s.cursors
  {
    hide DispatchStale, AnotherActive;
  }

  lemma WorkCursor(w: World, id: Id, c: Choice, key: CursorKey)
    requires CanWork(w, id, c) && !MayMoveCursor(w, Work(id, c), key)
    ensures SameCursor(w.db, DbAfter(w.db, w.queueConfigured, w.workers[id], c), key)
  {
    hide CommitOutcomeOf, RestoreCursor, FollowUp, FailWebhook, DispatchFailed;
    var k := w.workers[id];
    var r, now := k.task.run, c.clock.check;
    match k.phase
    case Failing => if k.task.WebhookTask? && !c.outcome.Error? { FailWebhookCursor(w.db, k.task.event, r, now, key); }
    case DispatchFailing(next) => if !c.outcome.Error? { DispatchFailedCursor(w.db, next, now, key); }
    case FollowingUp => FollowUpCursors(w.db, r, TaskEvent(k.task), c.clock);
    case _ =>
  }

  /** Every other step leaves the cursor where it is. */
  lemma NextCursor(w: World, st: Step, key: CursorKey)
    requires Sound(w) && Enabled(w, st) && !MayMoveCursor(w, st, key)
    ensures SameCursor(w.db, Next(w, st).db, key)
  {
    hide Sound, Inv, AfterDelivery, AfterWork, Process, DbAfter, ManualAllowed;
    InvOf(w);
    KeysOf(w.db);
    if st.Deliver? {
      AfterDeliveryDb(w, st.arrival, st.version);
      ProcessCursor(w.db, st.arrival, key);
    } else if st.Work? {
      AfterWorkDb(w, st.worker, st.choice);
      WorkCursor(w, st.worker, st.choice, key);
    } else {
      RouteDb(w, st);
    }
  }

  /** The last delivery of a burst holds the cursor of its target for as long as no later step may move it. */
  lemma {:induction false} LatestHoldsCursor(
    ws: seq<World>, steps: seq<Step>, i: nat, j: nat, ref: Ref, r: Id, m: nat)
    requires Execution(ws, steps) && Bursting(ws, steps, i, j, ref, r) && LastAsk(steps, i, j, ref, m)
    requires forall k :: m < k < j ==>
      !MayMoveCursor(ws[k], steps[k], CursorKey(steps[m].arrival.payload.key.conn, steps[m].arrival.payload.targetKey))
    ensures CursorAt(ws[j].db, steps[m].arrival, steps[m].arrival.newEvent)
    decreases j
  {
    hide Sound, Enabled, Next, DecisionFor, Known, RunningOn, Inv, MayMoveCursor;
    RunsThrough(ws, steps, i, j - 1, j, ref, r);
    AlwaysSound(ws, steps, j - 1);
    if m == j - 1 {
      AskTakesCursor(ws[m], steps[m], ref, r);
    } else {
      LatestHoldsCursor(ws, steps, i, j - 1, ref, r, m);
      NextCursor(ws[j - 1], steps[j - 1],
        CursorKey(steps[m].arrival.payload.key.conn, steps[m].arrival.payload.targetKey));
    }
  }

  lemma AskTakesCursor(w: World, st: Step, ref: Ref, r: Id)
    requires Sound(w) && Enabled(w, st) && Asks(st, ref) && RunningOn(w.db, ref, r)
    requires Known(w.db, st.arrival.payload.key).None? && DecisionFor(w.db, st.arrival).Queued?
    ensures CursorAt(Next(w, st).db, st.arrival, st.arrival.newEvent)
  {
    hide Sound, Inv, AfterDelivery, Process, DecisionFor, CursorAt, Superseded;
    InvOf(w);
    DeliveryAdmissible(w, st.arrival, st.version);
    AfterDeliveryDb(w, st.arrival, st.version);
    ParkStep(w.db, st.arrival, ref, r);
  }
}
