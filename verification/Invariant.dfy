/** What every transaction keeps true of the database, with no help from the unique indexes on runs. */
module Invariant {
  import opened Model
  import opened Deciding
  import opened Transactions

  /** At most one PENDING-or-RUNNING and at most one BLOCKED run per ref. */
  ghost predicate OnePerRef(runs: map<Id, Run>) {
    forall q, r :: q in runs && r in runs && q != r && runs[q].ref == runs[r].ref ==>
                     && !(IsActive(runs[q].status) && IsActive(runs[r].status))
                     && !(runs[q].status.Blocked? && runs[r].status.Blocked?)
  }

  ghost predicate CursorSound(events: map<Id, Event>, key: CursorKey, c: Cursor) {
    && c.event in events
    && var ev := events[c.event];
    && ev.delivery.conn == key.conn && ev.targetKey == key.targetKey && ev.head == Some(c.head) && !ev.status.Failed?
  }

  /** A cursor names a stored event of its own target, carries its head, and the event has not FAILED. */
  ghost predicate CursorsSound(events: map<Id, Event>, cursors: map<CursorKey, Cursor>) {
    forall key :: key in cursors ==> CursorSound(events, key, cursors[key])
  }

  /** Exactly the SUCCEEDED runs have a snapshot, only one, and of the commit they resolved. */
  ghost predicate SnapshotsSound(runs: map<Id, Run>, snapshots: map<Id, Snapshot>) {
    && (forall x :: x in snapshots ==>
          && snapshots[x].run in runs && runs[snapshots[x].run].status.Succeeded?
          && runs[snapshots[x].run].resolved == Some(snapshots[x].commit))
    && (forall x, y :: x in snapshots && y in snapshots && snapshots[x].run == snapshots[y].run ==> x == y)
    && (forall r :: r in runs && runs[r].status.Succeeded? ==> HasSnapshot(snapshots, r))
  }

  ghost predicate TriggerSound(events: map<Id, Event>, run: Run) {
    if IsManual(run.origin) then run.trigger.None? && !run.status.Blocked?
    else run.trigger.Some? && run.trigger.value in events && events[run.trigger.value].delivery.conn == run.ref.conn
  }

  /** Webhook runs have a stored trigger event of their connection, manual runs none. */
  ghost predicate TriggersSound(events: map<Id, Event>, runs: map<Id, Run>) {
    forall r :: r in runs ==> TriggerSound(events, runs[r])
  }

  ghost predicate LinksStored(events: map<Id, Event>, runs: map<Id, Run>) {
    forall e :: e in events && events[e].run.Some? ==>
      events[e].run.value in runs && runs[events[e].run.value].ref.conn == events[e].delivery.conn
  }

  ghost predicate Inv(s: State) {
    && Indexed(s) && s.events.Keys + s.runs.Keys + s.snapshots.Keys <= s.issued
    && OnePerRef(s.runs) && CursorsSound(s.events, s.cursors) && SnapshotsSound(s.runs, s.snapshots)
    && TriggersSound(s.events, s.runs) && LinksStored(s.events, s.runs)
  }

  /** Rank never goes down in blocked < pending < running < failed < succeeded; ref and origin stay. */
  predicate Forward(was: Run, run: Run) {
    && run.ref == was.ref && run.origin == was.origin && StatusRank(was.status) <= StatusRank(run.status)
    && (was.status.Succeeded? ==> run.resolved == was.resolved)
  }

  lemma TriggerOf(s: State, r: Id)
    requires Inv(s) && r in s.runs
    ensures TriggerSound(s.events, s.runs[r])
  {
  }

  lemma KeysOf(s: State)
    requires Inv(s)
    ensures Indexed(s) && s.events.Keys + s.runs.Keys + s.snapshots.Keys <= s.issued
  {
  }

  lemma RunOf(s: State, e: Id)
    requires Inv(s) && e in s.events
    ensures LinkStored(s.runs, s.events[e])
  {
  }

  lemma CursorOf(s: State, key: CursorKey)
    requires Inv(s) && key in s.cursors
    ensures CursorSound(s.events, key, s.cursors[key])
  {
  }

  // ---- single-row changes ----------------------------------------------------------------

  ghost predicate Alone(runs: map<Id, Run>, r: Id, run: Run) {
    forall q :: q in runs && q != r && runs[q].ref == run.ref ==>
      !(IsActive(run.status) && IsActive(runs[q].status)) && !(run.status.Blocked? && runs[q].status.Blocked?)
  }

  lemma OnePerRefSet(runs: map<Id, Run>, r: Id, run: Run)
    requires OnePerRef(runs)
    requires Alone(runs, r, run)
      || (r in runs && runs[r].ref == run.ref && (run.status == runs[r].status
            || (IsActive(run.status) && IsActive(runs[r].status)) || IsTerminal(run.status)))
    ensures OnePerRef(runs[r := run])
  {
  }

  lemma SnapshotsSet(runs: map<Id, Run>, snapshots: map<Id, Snapshot>, r: Id, run: Run)
    requires SnapshotsSound(runs, snapshots)
    requires if r in runs then run.status.Succeeded? == runs[r].status.Succeeded? else !run.status.Succeeded?
    requires r in runs && run.status.Succeeded? ==> run.resolved == runs[r].resolved
    ensures SnapshotsSound(runs[r := run], snapshots)
  {
  }

  lemma TriggersSet(events: map<Id, Event>, runs: map<Id, Run>, r: Id, run: Run)
    requires TriggersSound(events, runs) && TriggerSound(events, run)
    ensures TriggersSound(events, runs[r := run])
  {
  }

  lemma LinksSet(events: map<Id, Event>, runs: map<Id, Run>, r: Id, run: Run)
    requires LinksStored(events, runs) && (r in runs ==> runs[r].ref == run.ref)
    ensures LinksStored(events, runs[r := run])
  {
  }

  /** Replacing a run by a later form of itself. */
  lemma SetRunKeeps(s: State, r: Id, run: Run)
    requires Inv(s) && r in s.runs && Forward(s.runs[r], run) && TriggerSound(s.events, run)
    requires run.status.Succeeded? == s.runs[r].status.Succeeded?
    requires IsActive(run.status) && s.runs[r].status.Blocked? ==> Alone(s.runs, r, run)
    ensures Inv(SetRun(s, r, run))
  {
    OnePerRefSet(s.runs, r, run);
    SnapshotsSet(s.runs, s.snapshots, r, run);
    TriggersSet(s.events, s.runs, r, run);
    LinksSet(s.events, s.runs, r, run);
    assert s.runs[r := run].Keys == s.runs.Keys;
  }

  lemma CreateRunKeeps(s: State, r: Id, run: Run)
    requires Inv(s) && r !in s.issued && TriggerSound(s.events, run) && StatusRank(run.status) <= 1
    requires Alone(s.runs, r, run)
    ensures Inv(CreateRun(s, r, run))
  {
    OnePerRefSet(s.runs, r, run);
    SnapshotsSet(s.runs, s.snapshots, r, run);
    TriggersSet(s.events, s.runs, r, run);
    LinksSet(s.events, s.runs, r, run);
  }

  lemma CursorsSet(events: map<Id, Event>, cursors: map<CursorKey, Cursor>, e: Id, ev: Event)
    requires CursorsSound(events, cursors)
    requires forall k :: k in cursors && cursors[k].event == e ==> !ev.status.Failed?
    requires e in events ==>
      ev.delivery == events[e].delivery && ev.targetKey == events[e].targetKey && ev.head == events[e].head
    ensures CursorsSound(events[e := ev], cursors)
  {
    forall k | k in cursors ensures CursorSound(events[e := ev], k, cursors[k]) {
      assert CursorSound(events, k, cursors[k]);
    }
  }

  lemma EventTriggersSet(events: map<Id, Event>, runs: map<Id, Run>, e: Id, ev: Event)
    requires TriggersSound(events, runs) && (e in events ==> ev.delivery == events[e].delivery)
    ensures TriggersSound(events[e := ev], runs)
  {
    forall r | r in runs ensures TriggerSound(events[e := ev], runs[r]) {
      assert TriggerSound(events, runs[r]);
    }
  }

  ghost predicate LinkStored(runs: map<Id, Run>, ev: Event) {
    ev.run.Some? ==> ev.run.value in runs && runs[ev.run.value].ref.conn == ev.delivery.conn
  }

  lemma EventLinksSet(events: map<Id, Event>, runs: map<Id, Run>, e: Id, ev: Event)
    requires LinksStored(events, runs) && LinkStored(runs, ev)
    ensures LinksStored(events[e := ev], runs)
  {
  }

  /** Rewriting the processing fields of an event. */
  lemma SetEventKeeps(s: State, e: Id, ev: Event)
    requires Inv(s) && e in s.events && LinkStored(s.runs, ev)
    requires ev.delivery == s.events[e].delivery && ev.targetKey == s.events[e].targetKey && ev.head == s.events[e].head
    requires forall k :: k in s.cursors && s.cursors[k].event == e ==> !ev.status.Failed?
    ensures var s' := s.(events := s.events[e := ev]); Inv(s')
  {
    CursorsSet(s.events, s.cursors, e, ev);
    EventTriggersSet(s.events, s.runs, e, ev);
    EventLinksSet(s.events, s.runs, e, ev);
    assert s.events[e := ev].Keys == s.events.Keys;
  }

  lemma UpdateKeeps(s: State, e: Id, d: Decision, st: EventStatus, run: Option<Id>)
    requires Inv(s) && e in s.events
    requires run.Some? ==> run.value in s.runs && s.runs[run.value].ref.conn == s.events[e].delivery.conn
    requires st.Failed? ==> forall k :: k in s.cursors ==> s.cursors[k].event != e
    ensures Inv(UpdateEvent(s, e, d, st, run))
  {
    hide Inv;
    RunOf(s, e);
    var ev := s.events[e];
    SetEventKeeps(s, e, ev.(decision := d, status := st, run := if run.Some? then run else ev.run));
  }

  lemma AddEventKeeps(s: State, e: Id, ev: Event)
    requires Inv(s) && e !in s.issued && ev.delivery !in s.deliveries && ev.run.None?
    ensures var s' := s.(events := s.events[e := ev], deliveries := s.deliveries[ev.delivery := e],
                         issued := s.issued + {e});
      Inv(s')
  {
    forall k | k in s.cursors ensures s.cursors[k].event != e {
      assert CursorSound(s.events, k, s.cursors[k]);
    }
    CursorsSet(s.events, s.cursors, e, ev);
    EventTriggersSet(s.events, s.runs, e, ev);
    EventLinksSet(s.events, s.runs, e, ev);
  }

  lemma UpsertKeeps(s: State, key: CursorKey, head: Sha, e: Id)
    requires Inv(s) && CursorSound(s.events, key, Cursor(head, e))
    ensures Inv(UpsertCursor(s, key, head, e))
  {
  }

  // ---- deliveries ------------------------------------------------------------------------

  /** The payload of a known delivery is the one its row was stored with. */
  ghost predicate SamePayload(s: State, a: Arrival) {
    var known := Known(s, a.payload.key);
    known.Some? ==>
      s.events[known.value].targetKey == a.payload.targetKey && s.events[known.value].head == a.payload.head
  }

  /** What the parser guarantees and what the caller draws anew. */
  predicate Admissible(s: State, a: Arrival) {
    && a.newEvent !in s.issued && a.newRun !in s.issued && a.newEvent != a.newRun
    && (a.payload.request.Some? ==> !IsManual(a.payload.request.value.origin))
  }

  /** Row `e` is the row of this delivery. */
  ghost predicate RowOf(s: State, a: Arrival, e: Id) {
    && e in s.events && s.events[e].delivery == a.payload.key
    && s.events[e].targetKey == a.payload.targetKey && s.events[e].head == a.payload.head
  }

  lemma RowEffect(s: State, a: Arrival)
    requires Inv(s) && SamePayload(s, a)
    ensures var ev := RecordedRow(s, a);
      && ev.delivery == a.payload.key && ev.targetKey == a.payload.targetKey && ev.head == a.payload.head
      && LinkStored(s.runs, ev) && !ev.status.Failed?
      && (Known(s, a.payload.key).None? ==> ev.run.None?)
    ensures Known(s, a.payload.key).Some? ==>
      EventOf(s, a) in s.events && s.events[EventOf(s, a)].delivery == a.payload.key
  {
    hide Inv, DecisionFor, IsRetry;
    KeysOf(s);
    if Known(s, a.payload.key).Some? { RunOf(s, EventOf(s, a)); }
  }

  lemma RecordKeeps(s: State, a: Arrival)
    requires Inv(s) && Admissible(s, a) && SamePayload(s, a)
    ensures var s1 := Record(s, a);
      Inv(s1) && RowOf(s1, a, EventOf(s, a)) && a.newRun !in s1.issued && s1.runs == s.runs
  {
    hide Inv, RecordedRow;
    KeysOf(s);
    RowEffect(s, a);
    if Known(s, a.payload.key).None? {
      AddEventKeeps(s, EventOf(s, a), RecordedRow(s, a));
    } else {
      SetEventKeeps(s, EventOf(s, a), RecordedRow(s, a));
    }
  }

  lemma MoveCursorKeeps(s: State, a: Arrival, e: Id)
    requires Inv(s) && RowOf(s, a, e) && a.payload.head.Some? && !s.events[e].status.Failed?
    ensures Inv(MoveCursor(s, a.payload, e))
  {
    hide Inv;
    UpsertKeeps(s, CursorKey(a.payload.key.conn, a.payload.targetKey), a.payload.head.value, e);
  }

  lemma JoinKeeps(s: State, a: Arrival, e: Id, r: Id)
    requires Inv(s) && RowOf(s, a, e) && a.payload.head.Some?
    requires r in s.runs && s.runs[r].ref.conn == a.payload.key.conn
    ensures Inv(Join(s, a, e, r).state)
  {
    hide Inv;
    if DispatchEvent(s, r, a.clock.dispatch) == Some(e) {
      UpdateKeeps(s, e, Decision.Queued, EventStatus.Queued, Some(r));
      MoveCursorKeeps(UpdateEvent(s, e, Decision.Queued, EventStatus.Queued, Some(r)), a, e);
    } else {
      UpdateKeeps(s, e, Decision.DuplicateHead, EventStatus.Completed, Some(r));
    }
  }

  lemma BlockedForKeeps(s: State, a: Arrival, e: Id, ref: Ref)
    requires Inv(s) && a.newRun !in s.issued && RowOf(s, a, e) && ref.conn == a.payload.key.conn
    requires a.payload.request.Some? && !IsManual(a.payload.request.value.origin)
    ensures var (s1, b) := BlockedFor(s, a, e, ref);
      Inv(s1) && RowOf(s1, a, e) && b in s1.runs && s1.runs[b].ref == ref
  {
    hide Inv;
    var b := Earliest(s.runs, ref, Blocked);
    if b.None? {
      CreateRunKeeps(s, a.newRun, NewRun(ref, a.payload.request.value.origin, Some(e), Blocked, a.clock.now));
    } else {
      var run := s.runs[b.value];
      TriggerOf(s, b.value);
      var s1 := if run.trigger.value != e
                then UpdateEvent(s, run.trigger.value, Decision.DuplicateHead, EventStatus.Completed, b) else s;
      if run.trigger.value != e {
        UpdateKeeps(s, run.trigger.value, Decision.DuplicateHead, EventStatus.Completed, b);
      }
      SetRunKeeps(s1, b.value, run.(trigger := Some(e), startedAt := a.clock.now, dispatchedAt := None,
                                    completedAt := None, failure := None));
    }
  }

  lemma ParkKeeps(s: State, a: Arrival, e: Id, ref: Ref)
    requires Inv(s) && a.newRun !in s.issued && RowOf(s, a, e) && ref.conn == a.payload.key.conn
    requires a.payload.head.Some? && a.payload.request.Some? && !IsManual(a.payload.request.value.origin)
    ensures Inv(Park(s, a, e, ref).state)
  {
    hide Inv;
    BlockedForKeeps(s, a, e, ref);
    var (s1, b) := BlockedFor(s, a, e, ref);
    UpdateKeeps(s1, e, Decision.Queued, EventStatus.Validated, Some(b));
    MoveCursorKeeps(UpdateEvent(s1, e, Decision.Queued, EventStatus.Validated, Some(b)), a, e);
  }

  lemma StartKeeps(s: State, a: Arrival, e: Id, ref: Ref)
    requires Inv(s) && a.newRun !in s.issued && RowOf(s, a, e) && ref.conn == a.payload.key.conn
    requires a.payload.head.Some? && a.payload.request.Some? && !IsManual(a.payload.request.value.origin)
    requires ManualAllowed(s, ref)
    ensures Inv(Start(s, a, e, ref).state)
  {
    hide Inv;
    var run := NewRun(ref, a.payload.request.value.origin, Some(e), Pending, a.clock.now);
    CreateRunKeeps(s, a.newRun, run);
    var s1 := CreateRun(s, a.newRun, run);
    UpdateKeeps(s1, e, Decision.Queued, EventStatus.Queued, Some(a.newRun));
    MoveCursorKeeps(UpdateEvent(s1, e, Decision.Queued, EventStatus.Queued, Some(a.newRun)), a, e);
  }

  lemma QueueingHasHead(s: State, a: Arrival)
    requires Indexed(s) && (DecisionFor(s, a).Queued? || DecisionFor(s, a).DuplicateHead?)
    ensures a.payload.head.Some?
  {
    hide IsRetry;
  }

  lemma ProcessKeeps(s: State, a: Arrival)
    requires Inv(s) && Admissible(s, a) && SamePayload(s, a)
    ensures Inv(Process(s, a).state)
  {
    hide Inv, Record, DecisionFor;
    KeysOf(s);
    RecordKeeps(s, a);
    var s1, d, e := Record(s, a), DecisionFor(s, a), EventOf(s, a);
    if a.payload.request.Some? && (d.Queued? || d.DuplicateHead?) {
      QueueingHasHead(s, a);
      var ref := RequestedRef(a.payload);
      var active := Latest(s1.runs, ref, Pending);
      if active.Some? {
        JoinKeeps(s1, a, e, active.value);
      } else if d.Queued? {
        if Latest(s1.runs, ref, Running).Some? { ParkKeeps(s1, a, e, ref); } else { StartKeeps(s1, a, e, ref); }
      }
    }
  }

  // ---- the other transactions ------------------------------------------------------------

  lemma ClaimKeeps(s: State, r: Id, at: Time, stale: Time)
    requires Inv(s)
    ensures Inv(Claim(s, r, at, stale))
  {
    hide Inv;
    if Claimable(s, r, stale) {
      TriggerOf(s, r);
      SetRunKeeps(s, r, s.runs[r].(dispatchedAt := Some(at)));
    }
  }

  lemma EnqueueFailedKeeps(s: State, e: Id, r: Id)
    requires Inv(s) && (e in s.events && r in s.runs ==> s.events[e].delivery.conn == s.runs[r].ref.conn)
    ensures Inv(EnqueueFailed(s, e, r))
  {
    hide Inv;
    if e in s.events && r in s.runs {
      TriggerOf(s, r);
      SetRunKeeps(s, r, s.runs[r].(dispatchedAt := None));
      UpdateKeeps(SetRun(s, r, s.runs[r].(dispatchedAt := None)), e, Decision.Queued, EventStatus.Queued, Some(r));
    }
  }

  lemma ManualKeeps(s: State, ref: Ref, origin: Origin, r: Id, now: Time)
    requires Inv(s) && IsManual(origin) && r !in s.issued
    ensures Inv(CreateManual(s, ref, origin, r, now))
  {
    hide Inv;
    if ManualAllowed(s, ref) { CreateRunKeeps(s, r, NewRun(ref, origin, None, Pending, now)); }
  }

  lemma CancelKeeps(s: State, r: Id)
    requires Inv(s)
    ensures Inv(CancelManual(s, r))
  {
  }

  lemma RunningKeeps(s: State, r: Id, now: Time)
    requires Inv(s)
    ensures Inv(MarkRunning(s, r, now))
  {
    hide Inv;
    if Startable(s, r) {
      TriggerOf(s, r);
      SetRunKeeps(s, r, s.runs[r].(status := Running, startedAt := now, completedAt := None, failure := None));
    }
  }

  lemma FailedKeeps(s: State, r: Id, code: FailureCode, now: Time)
    requires Inv(s)
    ensures Inv(MarkFailed(s, r, code, now))
  {
    hide Inv;
    if r in s.runs && !s.runs[r].status.Succeeded? {
      TriggerOf(s, r);
      SetRunKeeps(s, r, s.runs[r].(status := RunStatus.Failed, completedAt := Some(now), failure := Some(code)));
    }
  }

  lemma ScopeKeeps(s: State, conn: Id, newScope: Id)
    requires Inv(s)
    ensures Inv(EnsureScope(s, conn, newScope)) && Inv(SaveScope(s, conn, newScope))
  {
  }

  lemma CommitKeeps(s: State, r: Id, scope: Id, commit: Sha, x: Id, now: Time)
    requires Inv(s) && x !in s.issued
    ensures var s' := CommitSnapshot(s, r, scope, commit, x, now); Inv(s')
  {
    if CommitOutcomeOf(s, r, scope) == Committed {
      TriggerOf(s, r);
      var run := s.runs[r].(status := Succeeded, resolved := Some(commit), completedAt := Some(now), failure := None);
      OnePerRefSet(s.runs, r, run);
      TriggersSet(s.events, s.runs, r, run);
      LinksSet(s.events, s.runs, r, run);
      CommittedSnapshots(s.runs, s.snapshots, r, run, x, Snapshot(r, scope, commit));
      assert s.runs[r := run].Keys == s.runs.Keys;
    }
  }

  lemma CommittedSnapshots(runs: map<Id, Run>, snapshots: map<Id, Snapshot>, r: Id, run: Run, x: Id, snap: Snapshot)
    requires SnapshotsSound(runs, snapshots) && r in runs && !HasSnapshot(snapshots, r)
    requires run.status.Succeeded? && snap.run == r && run.resolved == Some(snap.commit) && x !in snapshots
    ensures SnapshotsSound(runs[r := run], snapshots[x := snap])
  {
    forall q | q in runs.Keys && (q == r || runs[q].status.Succeeded?) ensures HasSnapshot(snapshots[x := snap], q) {
      if q == r {
        assert snapshots[x := snap][x].run == q;
      } else {
        var y :| y in snapshots && snapshots[y].run == q;
        assert snapshots[x := snap][y].run == q;
      }
    }
  }

  lemma CompleteKeeps(s: State, e: Id, r: Id, x: Id)
    requires Inv(s)
    ensures Inv(CompleteEvent(s, e, r, x))
  {
    hide Inv;
    if LinkedTo(s, e, r) {
      RunOf(s, e);
      var ev := s.events[e].(decision := Decision.Queued, status := EventStatus.Completed, snapshot := Some(x));
      SetEventKeeps(s, e, ev);
      assert CompleteEvent(s, e, r, x).events == s.events[e := ev];
    }
  }

  /** Failing an event and restoring its cursor in one transaction never exposes a cursor on a FAILED event. */
  lemma FailEventKeeps(s: State, e: Id, run: Option<Id>)
    requires Inv(s) && e in s.events
    requires run.Some? ==> run.value in s.runs && s.runs[run.value].ref.conn == s.events[e].delivery.conn
    ensures Inv(RestoreCursor(UpdateEvent(s, e, Decision.Queued, EventStatus.Failed, run), e))
  {
    hide Inv, RestoreCursor, DeleteCursorIfLatest, NewestEligible;
    var key := CursorKey(s.events[e].delivery.conn, s.events[e].targetKey);
    DeleteKeeps(s, e);
    var s0 := DeleteCursorIfLatest(s, key, e);
    DeleteOnlyCursor(s, key, e);
    UpdateKeeps(s0, e, Decision.Queued, EventStatus.Failed, run);
    var s1 := UpdateEvent(s0, e, Decision.Queued, EventStatus.Failed, run);
    var s2 := UpdateEvent(s, e, Decision.Queued, EventStatus.Failed, run);
    var next := NewestEligible(s2.events, key.conn, key.targetKey, e);
    RestoreEffect(s2, e);
    if next.Some? {
      assert CursorSound(s1.events, key, Cursor(s1.events[next.value].head.value, next.value));
      UpsertKeeps(s1, key, s1.events[next.value].head.value, next.value);
    }
  }

  lemma DeleteOnlyCursor(s: State, key: CursorKey, e: Id)
    ensures DeleteCursorIfLatest(s, key, e) == s.(cursors := DeleteCursorIfLatest(s, key, e).cursors)
    ensures e in s.events ==>
      forall d, st, run ::
        DeleteCursorIfLatest(UpdateEvent(s, e, d, st, run), key, e) ==
          UpdateEvent(DeleteCursorIfLatest(s, key, e), e, d, st, run)
  {
  }

  /** Restoring a cursor either drops it or points it at the newest eligible event. */
  lemma RestoreEffect(s: State, failed: Id)
    requires failed in s.events
    ensures
      var key := CursorKey(s.events[failed].delivery.conn, s.events[failed].targetKey);
      var gone := DeleteCursorIfLatest(s, key, failed);
      var next := NewestEligible(s.events, key.conn, key.targetKey, failed);
      if next.None? then RestoreCursor(s, failed) == gone
      else
        && next.value in s.events && Eligible(s.events[next.value], next.value, key.conn, key.targetKey, failed)
        && RestoreCursor(s, failed) == UpsertCursor(gone, key, s.events[next.value].head.value, next.value)
  {
    var key := CursorKey(s.events[failed].delivery.conn, s.events[failed].targetKey);
    var next := NewestEligible(s.events, key.conn, key.targetKey, failed);
    if next.Some? {
      var c := Cursor(s.events[next.value].head.value, next.value);
      assert s.cursors[key := c] == DeleteCursorIfLatest(s, key, failed).cursors[key := c];
    }
  }

  /** Only an event's own cursor can name it, so dropping that one leaves none. */
  lemma DeleteKeeps(s: State, e: Id)
    requires Inv(s) && e in s.events
    ensures var s0 := DeleteCursorIfLatest(s, CursorKey(s.events[e].delivery.conn, s.events[e].targetKey), e);
      Inv(s0) && forall k :: k in s0.cursors ==> s0.cursors[k].event != e
  {
    forall k | k in s.cursors ensures CursorSound(s.events, k, s.cursors[k]) { CursorOf(s, k); }
  }

  lemma FailWebhookKeeps(s: State, e: Id, r: Id, now: Time)
    requires Inv(s)
    ensures Inv(FailWebhook(s, e, r, now))
  {
    hide Inv;
    var s1 := if r in s.runs && !IsTerminal(s.runs[r].status) then MarkFailed(s, r, SnapshotWriteFailed, now) else s;
    FailedKeeps(s, r, SnapshotWriteFailed, now);
    if LinkedTo(s, e, r) && !(r in s.runs && s.runs[r].status.Succeeded?) { FailEventKeeps(s1, e, None); }
  }

  lemma DispatchFailedKeeps(s: State, r: Id, now: Time)
    requires Inv(s)
    ensures Inv(DispatchFailed(s, r, now))
  {
    hide Inv;
    FailedKeeps(s, r, QueueDispatchFailed, now);
    if r in s.runs && s.runs[r].trigger.Some? {
      TriggerOf(s, r);
      FailEventKeeps(MarkFailed(s, r, QueueDispatchFailed, now), s.runs[r].trigger.value, Some(r));
    }
  }

  lemma ReleaseKeeps(s: State, b: Id, e: Id, now: Time)
    requires Inv(s) && b in s.runs && s.runs[b].status.Blocked? && !AnotherActive(s, b) && LinkedTo(s, e, b)
    ensures var s' := UpdateEvent(Release(s, b, now), e, Decision.Queued, EventStatus.Queued, Some(b));
      Inv(s')
  {
    hide Inv;
    TriggerOf(s, b);
    var run := s.runs[b].(status := Pending, startedAt := now, dispatchedAt := None, completedAt := None,
                          failure := None);
    RunOf(s, e);
    SetRunKeeps(s, b, run);
    UpdateKeeps(SetRun(s, b, run), e, Decision.Queued, EventStatus.Queued, Some(b));
  }

  lemma FollowUpKeeps(s: State, r: Id, e: Option<Id>, t: FollowUpClock)
    requires Inv(s)
    ensures Inv(FollowUp(s, r, e, t).0)
  {
    hide Inv;
    if Relevant(s, r, e) {
      var (s1, next) := NextRun(s, r, t);
      if next.Some? {
        if s1 != s { ReleaseKeeps(s, next.value, s.runs[next.value].trigger.value, t.release); }
        ClaimKeeps(s1, next.value, t.enqueue, t.stale - RETRY_AFTER);
      }
    }
  }
}
