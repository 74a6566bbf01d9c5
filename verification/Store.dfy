/** The tables as the repositories and services update them, row by row, each operation proved to be the
    transaction of the protocol it carries out. */
module Storage {
  import opened Model
  import opened Deciding
  import opened Transactions
  import opened Invariant
  import CursorRecovery

  predicate IsNewestOf(events: map<Id, Event>, ids: set<Id>, n: Id)
    requires forall q :: q in ids ==> q in events
  {
    n in ids && forall q :: q in ids && q != n ==> After(events[n].receivedAt, n, events[q].receivedAt, q)
  }

  lemma {:induction false} NewestOfExists(events: map<Id, Event>, ids: set<Id>, e: Id)
    requires e in ids && forall q :: q in ids ==> q in events
    ensures exists n :: IsNewestOf(events, ids, n)
    decreases |ids|
  {
    var rest := ids - {e};
    if rest == {} {
      assert ids == {e};
      assert IsNewestOf(events, ids, e);
    } else {
      var q :| q in rest;
      NewestOfExists(events, rest, q);
      var n :| IsNewestOf(events, rest, n);
      assert ids == rest + {e};
      assert IsNewestOf(events, ids, if After(events[e].receivedAt, e, events[n].receivedAt, n) then e else n);
    }
  }

  predicate Descends(events: map<Id, Event>, list: seq<Id>) {
    && (forall i :: 0 <= i < |list| ==> list[i] in events)
    && forall i, j :: 0 <= i < j < |list| ==>
         After(events[list[i]].receivedAt, list[i], events[list[j]].receivedAt, list[j])
  }

  lemma DescendsNewestFirst(events: map<Id, Event>, list: seq<Id>)
    ensures Descends(events, list) <==> NewestFirst(events, list)
  {
  }

  class Store {
    var events: map<Id, Event>
    var deliveries: map<DeliveryKey, Id>
    var runs: map<Id, Run>
    var cursors: map<CursorKey, Cursor>
    var snapshots: map<Id, Snapshot>
    var scopes: map<Id, Id>
    var issued: set<Id>

    function View(): State
      reads this
    {
      State(events, deliveries, runs, cursors, snapshots, scopes, issued)
    }

    constructor ()
      ensures View() == EMPTY
    {
      events, deliveries, runs, cursors, snapshots, scopes, issued := map[], map[], map[], map[], map[], map[], {};
    }

    // ---- repositories ----------------------------------------------------------------------

    /** Decision and status of one event, and its run and snapshot if given; a given run wins over clearing. */
    method UpdateProcessing(
      e: Id, decision: Decision, status: EventStatus, run: Option<Id>, snapshot: Option<Id>, clearRun: bool)
      requires e in events
      modifies `events
      ensures events.Keys == old(events.Keys) && forall q :: q in events && q != e ==> events[q] == old(events)[q]
      ensures events[e].decision == decision && events[e].status == status
      ensures events[e].run == if run.Some? then run else if clearRun then None else old(events)[e].run
      ensures events[e].snapshot == if snapshot.Some? then snapshot else old(events)[e].snapshot
      ensures events[e] == old(events)[e].(
        decision := decision, status := status, run := events[e].run, snapshot := events[e].snapshot)
      ensures snapshot.None? && !clearRun ==> View() == UpdateEvent(old(View()), e, decision, status, run)
    {
      var ev := events[e].(decision := decision, status := status);
      if clearRun { ev := ev.(run := None); }
      if run.Some? { ev := ev.(run := run); }
      if snapshot.Some? { ev := ev.(snapshot := snapshot); }
      events := events[e := ev];
    }

    method UpsertCursor(key: CursorKey, head: Sha, event: Id)
      modifies `cursors
      ensures key in cursors && cursors[key].head == head && cursors[key].event == event
      ensures forall k :: k != key ==> (k in cursors <==> k in old(cursors))
      ensures forall k :: k != key && k in cursors ==> cursors[k] == old(cursors)[k]
      ensures View() == Transactions.UpsertCursor(old(View()), key, head, event)
    {
      if key in cursors {
        cursors := cursors[key := cursors[key].(head := head, event := event)];
      } else {
        cursors := cursors[key := Cursor(head, event)];
      }
    }

    method DeleteIfLatestEvent(key: CursorKey, event: Id)
      modifies `cursors
      ensures View() == DeleteCursorIfLatest(old(View()), key, event)
    {
      if key !in cursors || cursors[key].event != event { return; }
      cursors := cursors - {key};
    }

    /** The connection's events, newest first. */
    method ListForConnection(conn: Id) returns (list: seq<Id>)
      ensures NewestFirst(events, list)
      ensures forall e :: e in list <==> e in events && events[e].delivery.conn == conn
    {
      hide NewestFirst;
      var rest := set e | e in events && events[e].delivery.conn == conn;
      list := [];
      while rest != {}
        invariant forall e :: e in list || e in rest <==> e in events && events[e].delivery.conn == conn
        invariant Descends(events, list)
        invariant forall i, e :: 0 <= i < |list| && e in rest ==>
          After(events[list[i]].receivedAt, list[i], events[e].receivedAt, e)
        decreases |rest|
      {
        var some :| some in rest;
        NewestOfExists(events, rest, some);
        var e :| e in rest && IsNewestOf(events, rest, e);
        list := list + [e];
        rest := rest - {e};
      }
      DescendsNewestFirst(events, list);
    }

    method AddRun(r: Id, run: Run)
      modifies `runs, `issued
      ensures View() == CreateRun(old(View()), r, run)
    {
      runs, issued := runs[r := run], issued + {r};
    }

    method UpdateBlockedTrigger(r: Id, e: Id, at: Time) returns (ok: bool)
      requires r in runs
      modifies `runs
      ensures ok == old(runs[r].status.Blocked?)
      ensures View() == if ok then SetRun(old(View()), r, old(runs[r]).(
          trigger := Some(e), startedAt := at, dispatchedAt := None, completedAt := None, failure := None))
        else old(View())
    {
      ok := runs[r].status.Blocked?;
      if !ok { return; }
      runs := runs[r := runs[r].(trigger := Some(e))];
      runs := runs[r := runs[r].(startedAt := at)];
      runs := runs[r := runs[r].(dispatchedAt := None)];
      runs := runs[r := runs[r].(completedAt := None, failure := None)];
    }

    /** Whether another run of the ref is PENDING or RUNNING. */
    method OtherActive(r: Id) returns (found: bool)
      requires r in runs
      ensures found <==> exists q ::
        && q in runs && q != r && runs[q].ref == runs[r].ref && (runs[q].status.Pending? || runs[q].status.Running?)
    {
      found := false;
      var todo: set<Id> := runs.Keys;
      while todo != {}
        invariant todo <= runs.Keys
        invariant found <==> exists q ::
          && q in runs && q !in todo && q != r && runs[q].ref == runs[r].ref
          && (runs[q].status.Pending? || runs[q].status.Running?)
        decreases |todo|
      {
        var q: Id :| q in todo;
        if q != r && runs[q].ref == runs[r].ref && (runs[q].status.Pending? || runs[q].status.Running?) { found := true; }
        todo := todo - {q};
      }
    }

    /** Only a BLOCKED run, and only while no other run of its ref is active: so releasing it keeps one active and
        one BLOCKED run per ref. */
    method ReleaseBlockedIfNoActive(r: Id, at: Time) returns (released: bool)
      requires r in runs
      modifies `runs
      ensures released <==>
        && old(runs)[r].status.Blocked?
        && forall q :: q in old(runs) && q != r && old(runs)[q].ref == old(runs)[r].ref ==>
             !(old(runs)[q].status.Pending? || old(runs)[q].status.Running?)
      ensures !released ==> runs == old(runs)
      ensures released ==>
        && r in runs && runs[r].status.Pending? && runs[r].startedAt == at && runs[r].dispatchedAt.None?
        && runs[r].ref == old(runs)[r].ref && runs[r].trigger == old(runs)[r].trigger
      ensures runs.Keys == old(runs.Keys) && forall q :: q in runs && q != r ==> runs[q] == old(runs)[q]
      ensures OnePerRef(old(runs)) ==> OnePerRef(runs)
      ensures View() == Release(old(View()), r, at)
    {
      released := runs[r].status.Blocked?;
      if !released { return; }
      var active := OtherActive(r);
      if active { return false; }
      runs := runs[r := runs[r].(status := Pending, startedAt := at, dispatchedAt := None)];
      runs := runs[r := runs[r].(completedAt := None, failure := None)];
    }

    /** A claim takes a PENDING run that is unmarked or marked no later than `staleBefore`, touches nothing but its
        marker, and from then on refuses every claim whose stale time is before the new marker. */
    method ClaimDispatchEnqueued(r: Id, at: Time, staleBefore: Time) returns (claimed: bool)
      modifies `runs
      ensures claimed <==>
        && r in old(runs) && old(runs)[r].status.Pending?
        && (old(runs)[r].dispatchedAt.None? || old(runs)[r].dispatchedAt.value <= staleBefore)
      ensures !claimed ==> runs == old(runs)
      ensures claimed ==>
        && r in runs && runs == old(runs)[r := runs[r]] && runs[r] == old(runs)[r].(dispatchedAt := Some(at))
      ensures claimed ==> forall stale :: Claimable(View(), r, stale) <==> at <= stale
      ensures View() == Claim(old(View()), r, at, staleBefore)
    {
      claimed := false;
      if r in runs && runs[r].status.Pending? {
        var marker := runs[r].dispatchedAt;
        if marker.None? || marker.value <= staleBefore {
          runs := runs[r := runs[r].(dispatchedAt := Some(at))];
          claimed := true;
        }
      }
    }

    method SetRunning(r: Id, at: Time) returns (ok: bool)
      modifies `runs
      ensures ok <==> r in old(runs) && old(runs)[r].status.Pending?
      ensures ok ==> r in runs && runs[r] == old(runs)[r].(
        status := Running, startedAt := at, completedAt := None, failure := None)
      ensures runs.Keys == old(runs.Keys) && forall q :: q in runs && (q != r || !ok) ==> runs[q] == old(runs)[q]
      ensures View() == MarkRunning(old(View()), r, at)
    {
      ok := r in runs && runs[r].status.Pending?;
      if ok {
        runs := runs[r := runs[r].(status := Running, startedAt := at, failure := None, completedAt := None)];
      }
    }

    method SetFailed(r: Id, code: FailureCode, at: Time) returns (found: bool)
      modifies `runs
      ensures View() == MarkFailed(old(View()), r, code, at) && found == (r in old(runs))
    {
      found := r in runs;
      if !found || runs[r].status.Succeeded? { return; }
      runs := runs[r := runs[r].(status := RunStatus.Failed)];
      runs := runs[r := runs[r].(failure := Some(code), completedAt := Some(at))];
    }

    /** Whether some event links to the run: the foreign key that keeps a run from being deleted. */
    method HasLinkedEvent(r: Id) returns (found: bool)
      ensures found <==> exists e :: e in events && events[e].run == Some(r)
    {
      found := false;
      var todo: set<Id> := events.Keys;
      while todo != {}
        invariant todo <= events.Keys
        invariant found <==> exists e :: e in events && e !in todo && events[e].run == Some(r)
        decreases |todo|
      {
        var e: Id :| e in todo;
        if events[e].run == Some(r) { found := true; }
        todo := todo - {e};
      }
    }

    /** Only a PENDING run that no event links to goes, so no event is left linked to a run that is not there. */
    method DeletePending(r: Id) returns (ok: bool)
      modifies `runs
      ensures ok <==>
        && r in old(runs) && old(runs)[r].status.Pending? && forall e :: e in events ==> events[e].run != Some(r)
      ensures r in runs <==> r in old(runs) && !ok
      ensures forall q :: q != r ==> (q in runs <==> q in old(runs))
      ensures forall q :: q in runs ==> runs[q] == old(runs)[q]
      ensures LinksStored(events, old(runs)) ==> LinksStored(events, runs)
      ensures View() == CancelManual(old(View()), r)
    {
      ok := r in runs && runs[r].status.Pending?;
      if !ok { return; }
      var linked := HasLinkedEvent(r);
      if linked { return false; }
      runs := runs - {r};
    }

    /** Saving a scope makes it the connection's active one; from then on every build of the connection that read
        under another version is refused at its commit, and builds of other connections are as before. */
    method SaveActiveScope(conn: Id, scope: Id)
      modifies `scopes, `issued
      ensures forall c :: c != conn ==> (c in scopes <==> c in old(scopes))
      ensures forall c :: c != conn && c in scopes ==> scopes[c] == old(scopes)[c]
      ensures forall r, built :: r in runs && runs[r].ref.conn == conn ==>
        (CommitOutcomeOf(View(), r, built).ScopeChanged? <==> built != scope)
      ensures View() == SaveScope(old(View()), conn, scope)
    {
      scopes, issued := scopes[conn := scope], issued + {scope};
    }

    /** The version the connection has, untouched, or a new one if it has none. */
    method EnsureDefaultScope(conn: Id, newScope: Id) returns (scope: Id)
      modifies `scopes, `issued
      ensures conn in old(scopes) ==> scope == old(scopes)[conn] && View() == old(View())
      ensures conn !in old(scopes) ==> scope == newScope && scopes == old(scopes)[conn := newScope]
      ensures View() == EnsureScope(old(View()), conn, newScope) && conn in scopes && scope == scopes[conn]
    {
      if conn !in scopes { SaveActiveScope(conn, newScope); }
      scope := scopes[conn];
    }

    // ---- services: failures ----------------------------------------------------------------

    /** Walks the connection's events from the newest and stops at the first that may take the cursor over. */
    method RestoreCursorAfterFailure(failed: Id)
      requires failed in events
      modifies `cursors
      ensures View() == RestoreCursor(old(View()), failed)
    {
      var conn, targetKey := events[failed].delivery.conn, events[failed].targetKey;
      var list := ListForConnection(conn);
      hide NewestFirst;
      var i := 0;
      while i < |list| && !Eligible(events[list[i]], list[i], conn, targetKey, failed)
        invariant 0 <= i <= |list| && View() == old(View())
        invariant forall j :: 0 <= j < i ==> !Eligible(events[list[j]], list[j], conn, targetKey, failed)
      {
        i := i + 1;
      }
      FirstEligible(events, list, conn, targetKey, failed, i);
      if i == |list| {
        DeleteIfLatestEvent(CursorKey(conn, targetKey), failed);
      } else {
        UpsertCursor(CursorKey(conn, events[list[i]].targetKey), events[list[i]].head.value, list[i]);
      }
    }

    /** The webhook task's exception handler. */
    method HandleTaskFailure(e: Id, r: Id, at: Time)
      modifies this
      ensures View() == FailWebhook(old(View()), e, r, at)
    {
      var linked := LinkedTo(View(), e, r);
      var succeeded := r in runs && runs[r].status.Succeeded?;
      if r in runs && !IsTerminal(runs[r].status) { var _ := SetFailed(r, SnapshotWriteFailed, at); }
      if linked && !succeeded {
        UpdateProcessing(e, Decision.Queued, EventStatus.Failed, None, None, false);
        RestoreCursorAfterFailure(e);
      }
    }

    /** The follow-up's task could not be sent: bookkeeping that is rolled back if the trigger event is gone. */
    method HandleDispatchFailure(r: Id, at: Time) returns (found: bool)
      modifies this
      ensures View() == DispatchFailed(old(View()), r, at) && found == (r in old(runs))
    {
      found := r in runs;
      if !found { return; }
      var trigger := runs[r].trigger;
      if trigger.Some? && trigger.value !in events { return; }
      var _ := SetFailed(r, QueueDispatchFailed, at);
      if trigger.Some? {
        UpdateProcessing(trigger.value, Decision.Queued, EventStatus.Failed, Some(r), None, false);
        RestoreCursorAfterFailure(trigger.value);
      }
    }

    /** The webhook route could not send the task. */
    method RecordEnqueueFailure(e: Id, r: Id) returns (ok: bool)
      modifies this
      ensures View() == EnqueueFailed(old(View()), e, r) && ok == (e in old(events) && r in old(runs))
    {
      ok := e in events && r in runs;
      if !ok { return; }
      runs := runs[r := runs[r].(dispatchedAt := None)];
      UpdateProcessing(e, Decision.Queued, EventStatus.Queued, Some(r), None, false);
    }

    // ---- services: deliveries --------------------------------------------------------------

    /** Store a new delivery, or bring the row of a known one up to date. */
    method RecordDelivery(a: Arrival, decision: Decision, retry: bool) returns (e: Id)
      requires decision == DecisionFor(View(), a) && retry == IsRetry(View(), a)
      modifies this
      ensures View() == Record(old(View()), a) && e == EventOf(old(View()), a)
    {
      var status := if decision.Queued? then EventStatus.Queued else EventStatus.Completed;
      var known := Known(View(), a.payload.key);
      if known.None? {
        e := a.newEvent;
        events := events[e := Event(a.payload.key, a.payload.targetKey, a.payload.head, a.clock.now, decision, status,
                                    None, None)];
        deliveries, issued := deliveries[a.payload.key := e], issued + {e};
      } else {
        e := known.value;
        if retry {
          var row := events[e].(targetKey := a.payload.targetKey, head := a.payload.head);
          events := events[e := row.(receivedAt := a.clock.now)];
        }
        UpdateProcessing(e, decision, status, None, None, retry && !decision.Queued?);
      }
    }

    /** Create the ref's BLOCKED follow-up, or make the event the trigger of the one that is there. */
    method CreateOrReplaceBlocked(a: Arrival, e: Id, ref: Ref) returns (b: Id)
      requires a.payload.request.Some? && e in events
      modifies this
      ensures (View(), b) == BlockedFor(old(View()), a, e, ref) && e in events
    {
      var blocked := Earliest(runs, ref, Blocked);
      if blocked.None? {
        b := a.newRun;
        AddRun(b, NewRun(ref, a.payload.request.value.origin, Some(e), Blocked, a.clock.now));
      } else {
        b := blocked.value;
        var previous := runs[b].trigger;
        if previous.Some? && previous.value != e && previous.value in events {
          UpdateProcessing(previous.value, Decision.DuplicateHead, EventStatus.Completed, Some(b), None, false);
        }
        var _ := UpdateBlockedTrigger(b, e, a.clock.now);
      }
    }

    /** Attach a recorded delivery to the run that will cover it. */
    method AttachToRun(a: Arrival, decision: Decision, e: Id)
      returns (run: Option<Id>, enqueue: bool, dispatchEvent: Option<Id>)
      requires e in events
      modifies this
      ensures Processed(View(), e, run, enqueue, dispatchEvent) == Attach(old(View()), a, decision, e)
      ensures run.Some? ==> run.value in runs && IsAbout(a.payload, runs[run.value].ref)
    {
      AttachedIsAbout(View(), a, decision, e);
      run, enqueue, dispatchEvent := None, false, None;
      if a.payload.request.None? || !(decision.Queued? || decision.DuplicateHead?) { return; }
      var ref := RequestedRef(a.payload);
      var key := CursorKey(a.payload.key.conn, a.payload.targetKey);
      var running, active := Latest(runs, ref, Running), Latest(runs, ref, Pending);
      if active.Some? {
        run, dispatchEvent := active, DispatchEvent(View(), active.value, a.clock.dispatch);
        if dispatchEvent == Some(e) {
          UpdateProcessing(e, Decision.Queued, EventStatus.Queued, active, None, false);
        } else {
          UpdateProcessing(e, Decision.DuplicateHead, EventStatus.Completed, active, None, false);
        }
        enqueue := dispatchEvent.Some?;
        if a.payload.targetKey != "" && dispatchEvent == Some(e) {
          UpsertCursor(key, HeadOrEmpty(a.payload), e);
        }
      } else if decision.Queued? {
        if running.Some? {
          var b := CreateOrReplaceBlocked(a, e, ref);
          run := Some(b);
        } else {
          AddRun(a.newRun, NewRun(ref, a.payload.request.value.origin, Some(e), Pending, a.clock.now));
          run := Some(a.newRun);
        }
        enqueue := running.None?;
        dispatchEvent := if enqueue then Some(e) else None;
        var status := if enqueue then EventStatus.Queued else EventStatus.Validated;
        UpdateProcessing(e, Decision.Queued, status, run, None, false);
        UpsertCursor(key, HeadOrEmpty(a.payload), e);
      }
    }

    /** One verified delivery, in the order the service does it. */
    method ProcessDelivery(a: Arrival) returns (e: Id, run: Option<Id>, enqueue: bool, dispatchEvent: Option<Id>)
      modifies this
      ensures Processed(View(), e, run, enqueue, dispatchEvent) == Process(old(View()), a)
      ensures run.Some? ==> run.value in runs && IsAbout(a.payload, runs[run.value].ref)
    {
      var retry := IsRetry(View(), a);
      var decision := DecisionFor(View(), a);
      e := RecordDelivery(a, decision, retry);
      run, enqueue, dispatchEvent := AttachToRun(a, decision, e);
    }

    /** What a delivery that does not verify writes before the service raises: a new REJECTED row, or the mark on one
        that is not a verified row. A verified row is left alone. */
    method RejectDelivery(key: DeliveryKey, newEvent: Id, at: Time)
      modifies this
      ensures runs == old(runs) && cursors == old(cursors)
      ensures forall e :: e in old(events) && e != newEvent ==> e in events && events[e] == old(events)[e].(
        decision := events[e].decision, status := events[e].status)
      ensures forall e :: e in old(events) && e != newEvent && !old(events)[e].decision.Rejected? ==>
        events[e] == old(events)[e]
      ensures View() == MarkRejected(old(View()), key, newEvent, at)
    {
      if key in deliveries && deliveries[key] in events {
        var e := deliveries[key];
        if events[e].decision.Rejected? {
          UpdateProcessing(e, Decision.Rejected, EventStatus.Rejected, None, None, false);
        }
      } else {
        events := events[newEvent := Event(key, "none", None, at, Decision.Rejected, EventStatus.Rejected, None, None)];
        deliveries, issued := deliveries[key := newEvent], issued + {newEvent};
      }
    }

    // ---- services: builds and follow-ups ---------------------------------------------------

    /** `get_by_sync_run_id`, and what the unique index on a snapshot's run looks up. */
    method FindSnapshot(r: Id) returns (found: bool)
      ensures found <==> exists x :: x in snapshots && snapshots[x].run == r
    {
      found := false;
      var todo: set<Id> := snapshots.Keys;
      while todo != {}
        invariant todo <= snapshots.Keys
        invariant found <==> exists x :: x in snapshots && x !in todo && snapshots[x].run == r
        decreases |todo|
      {
        var x: Id :| x in todo;
        if snapshots[x].run == r { found := true; }
        todo := todo - {x};
      }
    }

    /** The commit transaction of a build: it commits exactly if the scope it was built under is still active and
        the run has no snapshot yet, and then the run is SUCCEEDED with this one snapshot. A changed scope or a
        snapshot already there raises, and nothing is kept. */
    method CommitBuild(r: Id, scope: Id, commit: Sha, snapshot: Id, at: Time) returns (outcome: CommitOutcome)
      modifies this
      ensures outcome.ScopeChanged? <==>
        r in old(runs) && !(old(runs)[r].ref.conn in old(scopes) && old(scopes)[old(runs)[r].ref.conn] == scope)
      ensures outcome.Committed? <==>
        && !outcome.ScopeChanged? && r in old(runs)
        && forall x :: x in old(snapshots) ==> old(snapshots)[x].run != r
      ensures !outcome.Committed? ==> View() == old(View())
      ensures outcome.Committed? ==>
        && r in runs && runs[r].status.Succeeded? && runs[r].resolved == Some(commit)
        && forall x :: (x in snapshots && snapshots[x].run == r) <==> x == snapshot
      ensures outcome.Committed? ==>
        && snapshots[snapshot] == Snapshot(r, scope, commit)
        && forall q :: q in old(runs) && q != r ==> q in runs && runs[q] == old(runs)[q]
      ensures View() == CommitSnapshot(old(View()), r, scope, commit, snapshot, at)
    {
      if r !in runs { return Conflict; }
      var conn := runs[r].ref.conn;
      if !(conn in scopes && scopes[conn] == scope) { return ScopeChanged; }
      var taken := FindSnapshot(r);
      if taken { return Conflict; }
      snapshots, issued := snapshots[snapshot := Snapshot(r, scope, commit)], issued + {snapshot};
      runs := runs[r := runs[r].(status := Succeeded)];
      runs := runs[r := runs[r].(resolved := Some(commit), failure := None)];
      runs := runs[r := runs[r].(completedAt := Some(at))];
      outcome := Committed;
    }

    /** A webhook task that ended well completes its event, if it is still linked to the run. */
    method HandleTaskSuccess(e: Id, r: Id, snapshot: Id)
      modifies this
      ensures View() == CompleteEvent(old(View()), e, r, snapshot)
    {
      if e in events && events[e].run == Some(r) {
        UpdateProcessing(e, Decision.Queued, EventStatus.Completed, None, Some(snapshot), false);
      }
    }

    /** An empty build result fails the run only while its scope is still the active one. */
    method FailEmptyBuild(r: Id, conn: Id, scope: Id, at: Time) returns (changed: bool)
      modifies this
      ensures View() == FailEmpty(old(View()), r, conn, scope, at)
      ensures changed == !ScopeStillActive(old(View()), conn, scope)
    {
      changed := !(conn in scopes && scopes[conn] == scope);
      if !changed { var _ := SetFailed(r, NoIncludedFiles, at); }
    }

    /** The run a finished run's follow-up would send: a PENDING one that waits, or the BLOCKED one, released. */
    method ChooseNext(r: Id, t: FollowUpClock) returns (next: Option<Id>)
      requires r in runs
      modifies this
      ensures (View(), next) == NextRun(old(View()), r, t)
    {
      next := None;
      var ref := runs[r].ref;
      var pending := Latest(runs, ref, Pending);
      if pending.Some? && pending.value != r && runs[pending.value].trigger.Some? {
        var trigger := runs[pending.value].trigger.value;
        if !DispatchStale(runs[pending.value], t.check) { return; }
        if !(LinkedTo(View(), trigger, pending.value) && events[trigger].status.Queued?) { return; }
        next := pending;
      } else {
        var running := Latest(runs, ref, Running);
        if running.Some? && running.value != r { return; }
        var blocked := Earliest(runs, ref, Blocked);
        if blocked.None? || blocked.value == r || runs[blocked.value].trigger.None? { return; }
        var trigger := runs[blocked.value].trigger.value;
        if !LinkedTo(View(), trigger, blocked.value) || !events[trigger].status.Validated? { return; }
        var released := ReleaseBlockedIfNoActive(blocked.value, t.release);
        if !released { return; }
        UpdateProcessing(trigger, Decision.Queued, EventStatus.Queued, blocked, None, false);
        next := blocked;
      }
    }

    /** The follow-up of a finished run, up to its send. */
    method DispatchNext(r: Id, e: Option<Id>, t: FollowUpClock) returns (next: Option<Id>)
      modifies this
      ensures (View(), next) == FollowUp(old(View()), r, e, t)
    {
      hide NextRun;
      next := None;
      if !Relevant(View(), r, e) { return; }
      var chosen := ChooseNext(r, t);
      if chosen.None? { return; }
      var claimed := ClaimDispatchEnqueued(chosen.value, t.enqueue, t.stale - RETRY_AFTER);
      if claimed { next := chosen; }
    }

    /** A manual sync is refused exactly while its ref has a PENDING or RUNNING run. */
    method RequestManualSync(ref: Ref, origin: Origin, r: Id, at: Time) returns (ok: bool)
      modifies this
      ensures ok <==> forall q :: q in old(runs) && old(runs)[q].ref == ref ==>
        !(old(runs)[q].status.Pending? || old(runs)[q].status.Running?)
      ensures !ok ==> View() == old(View())
      ensures ok ==>
        && r in runs && runs == old(runs)[r := runs[r]] && runs[r].ref == ref && runs[r].status.Pending?
        && runs[r].origin == origin && runs[r].trigger.None? && runs[r].dispatchedAt.None?
      ensures View() == CreateManual(old(View()), ref, origin, r, at)
    {
      var active := Latest(runs, ref, Pending);
      if active.Some? { return false; }
      var running := Latest(runs, ref, Running);
      if running.Some? { return false; }
      AddRun(r, NewRun(ref, origin, None, Pending, at));
      ok := true;
    }
  }

  /** Whatever run a delivery is attached to is about the delivery's own target. */
  lemma AttachedIsAbout(s: State, a: Arrival, d: Decision, e: Id)
    requires e in s.events
    ensures var p := Attach(s, a, d, e);
      p.run.Some? ==> p.run.value in p.state.runs && IsAbout(a.payload, p.state.runs[p.run.value].ref)
  {
    hide RequestedRef, IsAbout, Park, Join;
    if a.payload.request.Some? {
      var ref := RequestedRef(a.payload);
      RequestedIsAbout(a.payload);
      ParkedRef(s, a, e, ref);
      var active := Latest(s.runs, ref, Pending);
      if active.Some? { JoinedRef(s, a, e, active.value); }
    }
  }

  lemma ParkedRef(s: State, a: Arrival, e: Id, ref: Ref)
    requires e in s.events && a.payload.request.Some?
    ensures var p := Park(s, a, e, ref);
      p.run.Some? && p.run.value in p.state.runs && p.state.runs[p.run.value].ref == ref
  {
  }

  lemma JoinedRef(s: State, a: Arrival, e: Id, r: Id)
    requires e in s.events && r in s.runs
    ensures Join(s, a, e, r).run == Some(r) && Join(s, a, e, r).state.runs == s.runs
  {
    hide DispatchEvent;
  }

  /** The first eligible event of the newest-first listing is the newest eligible one. */
  lemma FirstEligible(events: map<Id, Event>, list: seq<Id>, conn: Id, targetKey: string, failed: Id, i: nat)
    requires NewestFirst(events, list) && i <= |list|
    requires forall e :: e in list <==> e in events && events[e].delivery.conn == conn
    requires forall j :: 0 <= j < i ==> !Eligible(events[list[j]], list[j], conn, targetKey, failed)
    requires i < |list| ==> Eligible(events[list[i]], list[i], conn, targetKey, failed)
    ensures NewestEligible(events, conn, targetKey, failed) == if i < |list| then Some(list[i]) else None
  {
    var next := NewestEligible(events, conn, targetKey, failed);
    DescendsNewestFirst(events, list);
    hide NewestFirst;
    if i < |list| {
      assert list[i] in list;
      assert IsNewestEligible(events, conn, targetKey, failed, list[i]) by {
        forall q | q in events && q != list[i] && Eligible(events[q], q, conn, targetKey, failed)
          ensures After(events[list[i]].receivedAt, list[i], events[q].receivedAt, q)
        {
          assert q in list;
          var k :| 0 <= k < |list| && list[k] == q;
        }
      }
      CursorRecovery.NewestIsUnique(events, conn, targetKey, failed, next.value, list[i]);
    } else {
      forall e | e in events && events[e].delivery.conn == conn ensures !Eligible(events[e], e, conn, targetKey, failed) {
        assert e in list;
      }
    }
  }
}
