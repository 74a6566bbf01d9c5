/** Each database transaction of the protocol as a function from state to state. A transaction
    that raises is rolled back by the session scope, so it is the identity on the state. */
module Transactions {
  import opened Model
  import opened Deciding

  // ---- row updates -----------------------------------------------------------------------

  function UpdateEvent(s: State, e: Id, decision: Decision, status: EventStatus, run: Option<Id>): State
    requires e in s.events
  {
    var ev := s.events[e];
    s.(events := s.events[e := ev.(decision := decision, status := status,
                                   run := if run.Some? then run else ev.run)])
  }

  function UpsertCursor(s: State, key: CursorKey, head: Sha, event: Id): State {
    s.(cursors := s.cursors[key := Cursor(head, event)])
  }

  function DeleteCursorIfLatest(s: State, key: CursorKey, event: Id): State {
    if key in s.cursors && s.cursors[key].event == event then s.(cursors := s.cursors - {key}) else s
  }

  function NewRun(ref: Ref, origin: Origin, trigger: Option<Id>, status: RunStatus, now: Time): Run {
    Run(ref, origin, trigger, status, now, None, None, None, None)
  }

  function CreateRun(s: State, r: Id, run: Run): State {
    s.(runs := s.runs[r := run], issued := s.issued + {r})
  }

  function SetRun(s: State, r: Id, run: Run): State { s.(runs := s.runs[r := run]) }

  // ---- one webhook delivery --------------------------------------------------------------

  /** Clock readings inside one delivery transaction: at entry, for the retry test, for the dispatch test. */
  datatype Clock = Clock(now: Time, retry: Time, dispatch: Time)

  datatype Arrival = Arrival(payload: Payload, seen: Observation, newEvent: Id, newRun: Id, clock: Clock)

  datatype Processed = Processed(
    state: State, event: Id, run: Option<Id>, enqueue: bool, dispatchEvent: Option<Id>)

  /** The strict staleness test of a dispatch marker. */
  predicate DispatchStale(run: Run, at: Time) {
    run.dispatchedAt.None? || at - run.dispatchedAt.value > RETRY_AFTER
  }

  /** `get_by_delivery_id` */
  function Known(s: State, key: DeliveryKey): (o: Option<Id>) {
    if key in s.deliveries && s.deliveries[key] in s.events then Some(s.deliveries[key]) else None
  }

  predicate Retryable(s: State, e: Id, conn: Id, at: Time)
    requires e in s.events
  {
    var ev := s.events[e];
    if ev.status.Rejected? then true
    else if !ev.decision.Queued? then false
    else if ev.status.Failed? then true
    else if !ev.status.Queued? then false
    else
      && ev.run.Some? && ev.run.value in s.runs
      && var run := s.runs[ev.run.value];
      && run.ref.conn == conn && run.status.Pending? && DispatchStale(run, at)
  }

  /** The deliveries index names stored rows of that key, and every row is indexed. */
  ghost predicate Indexes(deliveries: map<DeliveryKey, Id>, events: map<Id, Event>) {
    && (forall k :: k in deliveries ==> deliveries[k] in events && events[deliveries[k]].delivery == k)
    && (forall e :: e in events ==> events[e].delivery in deliveries && deliveries[events[e].delivery] == e)
  }

  ghost predicate Indexed(s: State) { Indexes(s.deliveries, s.events) }

  predicate IsRetry(s: State, a: Arrival) {
    var known := Known(s, a.payload.key);
    known.Some? && Retryable(s, known.value, a.payload.key.conn, a.clock.retry)
  }

  function CursorHead(s: State, p: Payload): Option<Sha> {
    var key := CursorKey(p.key.conn, p.targetKey);
    if key in s.cursors then Some(s.cursors[key].head) else None
  }

  function DecisionFor(s: State, a: Arrival): Decision {
    Decide(a.payload, a.seen, Known(s, a.payload.key).Some?, CursorHead(s, a.payload), IsRetry(s, a))
  }

  /** The event row a delivery lands on: the known one, or a new one. */
  function EventOf(s: State, a: Arrival): Id {
    if Known(s, a.payload.key).Some? then Known(s, a.payload.key).value else a.newEvent
  }

  /** The row as the delivery leaves it. A retried row is refreshed and, unless it is queued again, unlinked. */
  function RecordedRow(s: State, a: Arrival): Event {
    var p, d := a.payload, DecisionFor(s, a);
    var st := if d.Queued? then EventStatus.Queued else EventStatus.Completed;
    if Known(s, p.key).None? then Event(p.key, p.targetKey, p.head, a.clock.now, d, st, None, None)
    else
      var ev := s.events[EventOf(s, a)];
      if IsRetry(s, a) then
        ev.(targetKey := p.targetKey, head := p.head, receivedAt := a.clock.now, decision := d, status := st,
            run := if d.Queued? then ev.run else None)
      else ev.(decision := d, status := st)
  }

  /** Store the delivery and its decision. */
  function Record(s: State, a: Arrival): State {
    var e := EventOf(s, a);
    var s1 := s.(events := s.events[e := RecordedRow(s, a)]);
    if Known(s, a.payload.key).None? then
      s1.(deliveries := s.deliveries[a.payload.key := e], issued := s.issued + {e})
    else s1
  }

  /** The event a PENDING run would be dispatched for now, if it still waits for a dispatch. */
  function DispatchEvent(s: State, r: Id, at: Time): (o: Option<Id>)
    requires r in s.runs
  {
    var run := s.runs[r];
    if run.trigger.None? || !DispatchStale(run, at) then None
    else
      var e := run.trigger.value;
      if e in s.events && s.events[e].run == Some(r) && s.events[e].status.Queued? then Some(e) else None
  }

  function HeadOrEmpty(p: Payload): Sha { if p.head.Some? then p.head.value else "" }

  function MoveCursor(s: State, p: Payload, e: Id): State {
    UpsertCursor(s, CursorKey(p.key.conn, p.targetKey), HeadOrEmpty(p), e)
  }

  /** Attach the delivery to the run that is already PENDING for its ref. */
  function Join(s: State, a: Arrival, e: Id, r: Id): Processed
    requires e in s.events && r in s.runs
  {
    var de := DispatchEvent(s, r, a.clock.dispatch);
    if de == Some(e) then
      var s1 := UpdateEvent(s, e, Decision.Queued, EventStatus.Queued, Some(r));
      Processed(if a.payload.targetKey != "" then MoveCursor(s1, a.payload, e) else s1, e, Some(r), true, de)
    else
      Processed(UpdateEvent(s, e, Decision.DuplicateHead, EventStatus.Completed, Some(r)), e, Some(r), de.Some?, de)
  }

  /** Create the ref's BLOCKED follow-up, or make `e` the trigger of the one that is there. */
  function BlockedFor(s: State, a: Arrival, e: Id, ref: Ref): (State, Id)
    requires a.payload.request.Some?
  {
    var b := Earliest(s.runs, ref, Blocked);
    if b.None? then
      (CreateRun(s, a.newRun, NewRun(ref, a.payload.request.value.origin, Some(e), Blocked, a.clock.now)), a.newRun)
    else
      var run := s.runs[b.value];
      var s1 := if run.trigger.Some? && run.trigger.value != e && run.trigger.value in s.events then
                  UpdateEvent(s, run.trigger.value, Decision.DuplicateHead, EventStatus.Completed, b)
                else s;
      (SetRun(s1, b.value, run.(trigger := Some(e), startedAt := a.clock.now, dispatchedAt := None,
                                completedAt := None, failure := None)), b.value)
  }

  /** Park the delivery behind the RUNNING run of its ref. */
  function Park(s: State, a: Arrival, e: Id, ref: Ref): Processed
    requires a.payload.request.Some? && e in s.events
  {
    var (s1, b) := BlockedFor(s, a, e, ref);
    var s2 := UpdateEvent(s1, e, Decision.Queued, EventStatus.Validated, Some(b));
    Processed(MoveCursor(s2, a.payload, e), e, Some(b), false, None)
  }

  /** Start a new PENDING run for the delivery. */
  function Start(s: State, a: Arrival, e: Id, ref: Ref): Processed
    requires a.payload.request.Some? && e in s.events
  {
    var s1 := CreateRun(s, a.newRun, NewRun(ref, a.payload.request.value.origin, Some(e), Pending, a.clock.now));
    var s2 := UpdateEvent(s1, e, Decision.Queued, EventStatus.Queued, Some(a.newRun));
    Processed(MoveCursor(s2, a.payload, e), e, Some(a.newRun), true, Some(e))
  }

  function Attach(s: State, a: Arrival, d: Decision, e: Id): Processed
    requires e in s.events
  {
    if a.payload.request.None? || !(d.Queued? || d.DuplicateHead?) then Processed(s, e, None, false, None)
    else
      var ref := RequestedRef(a.payload);
      var active := Latest(s.runs, ref, Pending);
      if active.Some? then Join(s, a, e, active.value)
      else if !d.Queued? then Processed(s, e, None, false, None)
      else if Latest(s.runs, ref, Running).Some? then Park(s, a, e, ref)
      else Start(s, a, e, ref)
  }

  /** One verified delivery. */
  function Process(s: State, a: Arrival): Processed {
    Attach(Record(s, a), a, DecisionFor(s, a), EventOf(s, a))
  }

  // ---- a delivery that does not verify ---------------------------------------------------

  /** The session scope: what a transaction wrote is kept only if it did not raise. */
  function SessionScope(before: State, written: State, raised: bool): State { if raised then before else written }

  /** What the service writes for a delivery whose signature does not verify: a new REJECTED row, or the REJECTED
      mark on a row that is not a verified one. Every row but a REJECTED one is verified. */
  function MarkRejected(s: State, key: DeliveryKey, newEvent: Id, at: Time): State {
    var known := Known(s, key);
    if known.None? then
      s.(events := s.events[newEvent :=
           Event(key, "none", None, at, Decision.Rejected, EventStatus.Rejected, None, None)],
         deliveries := s.deliveries[key := newEvent], issued := s.issued + {newEvent})
    else if s.events[known.value].decision.Rejected? then
      UpdateEvent(s, known.value, Decision.Rejected, EventStatus.Rejected, None)
    else s
  }

  /** The whole transaction: the service raises after it has written. */
  function Reject(s: State, key: DeliveryKey, newEvent: Id, at: Time): State {
    SessionScope(s, MarkRejected(s, key, newEvent, at), true)
  }

  // ---- dispatch lease --------------------------------------------------------------------

  predicate Claimable(s: State, r: Id, staleBefore: Time) {
    && r in s.runs && s.runs[r].status.Pending?
    && (s.runs[r].dispatchedAt.None? || s.runs[r].dispatchedAt.value <= staleBefore)
  }

  function Claim(s: State, r: Id, enqueuedAt: Time, staleBefore: Time): State {
    if Claimable(s, r, staleBefore) then SetRun(s, r, s.runs[r].(dispatchedAt := Some(enqueuedAt))) else s
  }

  /** The route could not send the task: drop the marker and requeue the event. */
  function EnqueueFailed(s: State, e: Id, r: Id): State {
    if e !in s.events || r !in s.runs then s
    else UpdateEvent(SetRun(s, r, s.runs[r].(dispatchedAt := None)), e, Decision.Queued, EventStatus.Queued, Some(r))
  }

  // ---- manual runs -----------------------------------------------------------------------

  predicate ManualAllowed(s: State, ref: Ref) {
    Latest(s.runs, ref, Pending).None? && Latest(s.runs, ref, Running).None?
  }

  function CreateManual(s: State, ref: Ref, origin: Origin, r: Id, now: Time): State {
    if ManualAllowed(s, ref) then CreateRun(s, r, NewRun(ref, origin, None, Pending, now)) else s
  }

  /** Only a PENDING run is cancelled, and the events' foreign key keeps a linked run. */
  predicate Cancellable(s: State, r: Id) {
    && r in s.runs && s.runs[r].status.Pending?
    && forall e :: e in s.events ==> s.events[e].run != Some(r)
  }

  function CancelManual(s: State, r: Id): State {
    if Cancellable(s, r) then s.(runs := s.runs - {r}) else s
  }

  // ---- building a snapshot ---------------------------------------------------------------

  predicate Startable(s: State, r: Id) { r in s.runs && s.runs[r].status.Pending? }

  function MarkRunning(s: State, r: Id, now: Time): State {
    if !Startable(s, r) then s
    else SetRun(s, r, s.runs[r].(status := Running, startedAt := now, completedAt := None, failure := None))
  }

  function MarkFailed(s: State, r: Id, code: FailureCode, now: Time): State {
    if r !in s.runs || s.runs[r].status.Succeeded? then s
    else SetRun(s, r, s.runs[r].(status := RunStatus.Failed, completedAt := Some(now), failure := Some(code)))
  }

  /** `ensure_default_scope_rule_version`: the active version, created on first use. */
  function EnsureScope(s: State, conn: Id, newScope: Id): State {
    if conn in s.scopes then s else s.(scopes := s.scopes[conn := newScope], issued := s.issued + {newScope})
  }

  function SaveScope(s: State, conn: Id, newScope: Id): State {
    s.(scopes := s.scopes[conn := newScope], issued := s.issued + {newScope})
  }

  predicate ScopeStillActive(s: State, conn: Id, scope: Id) { conn in s.scopes && s.scopes[conn] == scope }

  predicate IsSnapshotOf(snapshots: map<Id, Snapshot>, r: Id, x: Id) {
    && x in snapshots && snapshots[x].run == r
    && forall y :: y in snapshots && snapshots[y].run == r ==> x <= y
  }

  lemma {:induction false} SomeSnapshotOf(snapshots: map<Id, Snapshot>, r: Id, x: Id)
    requires x in snapshots && snapshots[x].run == r
    ensures exists y :: IsSnapshotOf(snapshots, r, y)
    decreases x
  {
    if !IsSnapshotOf(snapshots, r, x) {
      var y :| y in snapshots && snapshots[y].run == r && y < x;
      SomeSnapshotOf(snapshots, r, y);
    }
  }

  ghost predicate HasSnapshot(snapshots: map<Id, Snapshot>, r: Id) {
    exists x :: x in snapshots && snapshots[x].run == r
  }

  /** `get_by_sync_run_id` */
  function SnapshotOf(snapshots: map<Id, Snapshot>, r: Id): (o: Option<Id>)
    ensures o.Some? ==> o.value in snapshots && snapshots[o.value].run == r
    ensures o.Some? <==> HasSnapshot(snapshots, r)
  {
    if exists x :: x in snapshots && IsSnapshotOf(snapshots, r, x) then
      var x :| x in snapshots && IsSnapshotOf(snapshots, r, x); Some(x)
    else
      assert !HasSnapshot(snapshots, r) by {
        forall x | x in snapshots && snapshots[x].run == r ensures false { SomeSnapshotOf(snapshots, r, x); }
      }
      None
  }

  datatype CommitOutcome = Committed | ScopeChanged | Conflict

  /** What the commit transaction of a build does: the unique index on the snapshot's run decides a race. */
  function CommitOutcomeOf(s: State, r: Id, scope: Id): CommitOutcome {
    if r !in s.runs then Conflict
    else if !ScopeStillActive(s, s.runs[r].ref.conn, scope) then ScopeChanged
    else if SnapshotOf(s.snapshots, r).Some? then Conflict
    else Committed
  }

  function CommitSnapshot(s: State, r: Id, scope: Id, commit: Sha, snapshot: Id, now: Time): State {
    if CommitOutcomeOf(s, r, scope) != Committed then s
    else
      s.(snapshots := s.snapshots[snapshot := Snapshot(r, scope, commit)], issued := s.issued + {snapshot},
         runs := s.runs[r := s.runs[r].(status := Succeeded, resolved := Some(commit), completedAt := Some(now),
                                        failure := None)])
  }

  /** The empty-result transaction: fail the run unless the scope has changed meanwhile. */
  function FailEmpty(s: State, r: Id, conn: Id, scope: Id, now: Time): State {
    if ScopeStillActive(s, conn, scope) then MarkFailed(s, r, NoIncludedFiles, now) else s
  }

  // ---- after a build ---------------------------------------------------------------------

  predicate LinkedTo(s: State, e: Id, r: Id) { e in s.events && s.events[e].run == Some(r) }

  function CompleteEvent(s: State, e: Id, r: Id, snapshot: Id): State {
    if !LinkedTo(s, e, r) then s
    else
      var s1 := UpdateEvent(s, e, Decision.Queued, EventStatus.Completed, None);
      s1.(events := s1.events[e := s1.events[e].(snapshot := Some(snapshot))])
  }

  ghost function RestoreCursor(s: State, failed: Id): State
    requires failed in s.events
  {
    var ev := s.events[failed];
    var key := CursorKey(ev.delivery.conn, ev.targetKey);
    var next := NewestEligible(s.events, ev.delivery.conn, ev.targetKey, failed);
    if next.None? then DeleteCursorIfLatest(s, key, failed)
    else UpsertCursor(s, key, s.events[next.value].head.value, next.value)
  }

  /** The webhook task's exception handler. */
  ghost function FailWebhook(s: State, e: Id, r: Id, now: Time): State {
    var s1 := if r in s.runs && !IsTerminal(s.runs[r].status) then MarkFailed(s, r, SnapshotWriteFailed, now) else s;
    if LinkedTo(s, e, r) && !(r in s.runs && s.runs[r].status.Succeeded?) then
      RestoreCursor(UpdateEvent(s1, e, Decision.Queued, EventStatus.Failed, None), e)
    else s1
  }

  /** The manual task's exception handler. */
  function FailManual(s: State, r: Id, code: FailureCode, now: Time): State {
    if r in s.runs && s.runs[r].status != RunStatus.Failed then MarkFailed(s, r, code, now) else s
  }

  // ---- the follow-up of a finished run ---------------------------------------------------

  datatype FollowUpClock = FollowUpClock(check: Time, release: Time, enqueue: Time, stale: Time)

  predicate AnotherActive(s: State, r: Id)
    requires r in s.runs
  {
    exists q :: q in s.runs && q != r && s.runs[q].ref == s.runs[r].ref && IsActive(s.runs[q].status)
  }

  /** `release_blocked_if_no_active` */
  function Release(s: State, b: Id, now: Time): State
    requires b in s.runs
  {
    if s.runs[b].status.Blocked? && !AnotherActive(s, b) then
      SetRun(s, b, s.runs[b].(status := Pending, startedAt := now, dispatchedAt := None, completedAt := None,
                              failure := None))
    else s
  }

  predicate Relevant(s: State, r: Id, e: Option<Id>) {
    && r in s.runs && IsTerminal(s.runs[r].status)
    && (e.Some? && e.value in s.events ==> s.events[e.value].run == Some(r))
  }

  /** The run the follow-up of `r` would send next, and the state in which it tries to claim it. */
  function NextRun(s: State, r: Id, t: FollowUpClock): (State, Option<Id>)
    requires r in s.runs
  {
    var ref := s.runs[r].ref;
    var p := Latest(s.runs, ref, Pending);
    if p.Some? && p.value != r && s.runs[p.value].trigger.Some? then
      var run := s.runs[p.value];
      if !DispatchStale(run, t.check) then (s, None)
      else if LinkedTo(s, run.trigger.value, p.value) && s.events[run.trigger.value].status.Queued? then (s, p)
      else (s, None)
    else
      var q := Latest(s.runs, ref, Running);
      var b := Earliest(s.runs, ref, Blocked);
      if (q.Some? && q.value != r) || b.None? || b.value == r || s.runs[b.value].trigger.None? then (s, None)
      else
        var e := s.runs[b.value].trigger.value;
        if !LinkedTo(s, e, b.value) || !s.events[e].status.Validated? || AnotherActive(s, b.value) then (s, None)
        else (UpdateEvent(Release(s, b.value, t.release), e, Decision.Queued, EventStatus.Queued, b), b)
  }

  /** `_dispatch_next_pending_sync_for_ref` up to its send: the new state and the run whose task is sent. */
  function FollowUp(s: State, r: Id, e: Option<Id>, t: FollowUpClock): (o: (State, Option<Id>))
    ensures o.1.Some? ==> o.1.value in o.0.runs
  {
    if !Relevant(s, r, e) then (s, None)
    else
      var (s1, next) := NextRun(s, r, t);
      if next.None? || !Claimable(s1, next.value, t.stale - RETRY_AFTER) then (s1, None)
      else (Claim(s1, next.value, t.enqueue, t.stale - RETRY_AFTER), next)
  }

  /** The follow-up task could not be sent. */
  ghost function DispatchFailed(s: State, r: Id, now: Time): State {
    if r !in s.runs then s
    else
      var s1 := MarkFailed(s, r, QueueDispatchFailed, now);
      var e := s.runs[r].trigger;
      if e.None? then s1
      else if e.value !in s.events then s
      else RestoreCursor(UpdateEvent(s1, e.value, Decision.Queued, EventStatus.Failed, Some(r)), e.value)
  }
}
