/** What any transaction may do to rows that are already there, whatever the interleaving. */
module Effects {
  import opened Model
  import opened Deciding
  import opened Transactions
  import opened Invariant

  ghost predicate RunsForward(issued: set<Id>, runs: map<Id, Run>, issued': set<Id>, runs': map<Id, Run>) {
    && issued <= issued'
    && (forall r :: r in runs && r in runs' ==> Forward(runs[r], runs'[r]))
    && (forall r :: r in runs' && r !in runs ==> r !in issued && StatusRank(runs'[r].status) <= 1)
    && (forall r :: r in runs && StatusRank(runs[r].status) >= 2 ==> r in runs')
  }

  /** The columns of an event that processing never touches. */
  predicate SameDelivery(was: Event, ev: Event) {
    ev.delivery == was.delivery && ev.targetKey == was.targetKey && ev.head == was.head
  }

  ghost predicate EventsKept(events: map<Id, Event>, events': map<Id, Event>) {
    forall e :: e in events ==> e in events' && SameDelivery(events[e], events'[e])
  }

  ghost predicate SnapshotsKept(snapshots: map<Id, Snapshot>, snapshots': map<Id, Snapshot>) {
    forall x :: x in snapshots ==> x in snapshots' && snapshots'[x] == snapshots[x]
  }

  ghost predicate OldLink(events: map<Id, Event>, runs: map<Id, Run>, e: Id, r: Id) {
    (e in events && events[e].run == Some(r)) || (r in runs && runs[r].trigger == Some(e))
  }

  /** A stored link is an old one, a run's own trigger, or one of `added`. */
  ghost predicate LinkStep(
    events: map<Id, Event>, runs: map<Id, Run>, events': map<Id, Event>, added: set<(Id, Id)>)
  {
    forall e :: e in events' && events'[e].run.Some? ==>
      OldLink(events, runs, e, events'[e].run.value) || (e, events'[e].run.value) in added
  }

  /** A trigger is an old one or one of `added`. */
  ghost predicate TriggerStep(runs: map<Id, Run>, runs': map<Id, Run>, added: set<(Id, Id)>) {
    forall r :: r in runs' && runs'[r].trigger.Some? ==>
      (r in runs && runs[r].trigger == runs'[r].trigger) || (runs'[r].trigger.value, r) in added
  }

  /** Only the runs in `moved` were started or completed. */
  ghost predicate StatusStep(runs: map<Id, Run>, runs': map<Id, Run>, moved: set<Id>) {
    forall r :: r in runs' && (runs'[r].status.Running? || runs'[r].status.Succeeded?) ==>
      (r in runs && runs[r].status == runs'[r].status) || r in moved
  }

  ghost predicate Evolves(s: State, s': State, added: set<(Id, Id)>, moved: set<Id>) {
    && RunsForward(s.issued, s.runs, s'.issued, s'.runs) && EventsKept(s.events, s'.events)
    && SnapshotsKept(s.snapshots, s'.snapshots) && LinkStep(s.events, s.runs, s'.events, added)
    && TriggerStep(s.runs, s'.runs, added) && StatusStep(s.runs, s'.runs, moved)
  }

  // ---- single-row changes, on top of what the transaction did before ---------------------

  lemma Unchanged(s: State, added: set<(Id, Id)>, moved: set<Id>)
    ensures Evolves(s, s, added, moved)
  {
  }

  lemma RunSet(s: State, t: State, r: Id, run: Run, added: set<(Id, Id)>, moved: set<Id>)
    requires Evolves(s, t, added, moved) && r in t.runs && Forward(t.runs[r], run)
    requires run.status == t.runs[r].status || !(run.status.Running? || run.status.Succeeded?) || r in moved
    requires r !in s.runs ==> StatusRank(run.status) <= 1
    requires run.trigger.Some? ==> run.trigger == t.runs[r].trigger || (run.trigger.value, r) in added
    ensures RunsForward(s.issued, s.runs, t.issued, t.runs[r := run]) && TriggerStep(s.runs, t.runs[r := run], added)
    ensures StatusStep(s.runs, t.runs[r := run], moved)
  {
    hide EventsKept, SnapshotsKept, LinkStep;
  }

  lemma RunAdded(s: State, t: State, r: Id, run: Run, added: set<(Id, Id)>)
    requires Evolves(s, t, added, {}) && r !in s.issued && r !in s.runs && StatusRank(run.status) <= 1
    requires run.trigger.Some? ==> (run.trigger.value, r) in added
    ensures RunsForward(s.issued, s.runs, t.issued + {r}, t.runs[r := run]) &&
      TriggerStep(s.runs, t.runs[r := run], added)
    ensures StatusStep(s.runs, t.runs[r := run], {})
  {
    hide EventsKept, SnapshotsKept, LinkStep;
  }

  lemma EventSet(s: State, t: State, e: Id, ev: Event, added: set<(Id, Id)>)
    requires EventsKept(s.events, t.events) && LinkStep(s.events, s.runs, t.events, added)
    requires e in t.events ==> SameDelivery(t.events[e], ev)
    requires ev.run.Some? ==> (e in t.events && ev.run == t.events[e].run) || OldLink(s.events, s.runs, e, ev.run.value)
                              || (e, ev.run.value) in added
    ensures EventsKept(s.events, t.events[e := ev]) && LinkStep(s.events, s.runs, t.events[e := ev], added)
  {
  }

  lemma EventUpdated(s: State, t: State, e: Id, d: Decision, st: EventStatus, run: Option<Id>, added: set<(Id, Id)>)
    requires Evolves(s, t, added, {}) && e in t.events
    requires run.Some? ==> OldLink(s.events, s.runs, e, run.value) || (e, run.value) in added
    ensures Evolves(s, UpdateEvent(t, e, d, st, run), added, {})
  {
    hide RunsForward, EventsKept, SnapshotsKept, LinkStep, TriggerStep, StatusStep, OldLink;
    var ev := t.events[e];
    EventSet(s, t, e, ev.(decision := d, status := st, run := if run.Some? then run else ev.run), added);
  }

  // ---- deliveries ------------------------------------------------------------------------

  ghost function LinkOf(p: Processed): set<(Id, Id)> {
    if p.run.Some? then {(p.event, p.run.value)} else {}
  }

  lemma RecordEvolves(s: State, a: Arrival, added: set<(Id, Id)>)
    requires Inv(s) && Admissible(s, a) && SamePayload(s, a)
    ensures Evolves(s, Record(s, a), added, {}) && Record(s, a).runs == s.runs
  {
    hide Inv, RecordedRow, RunsForward, EventsKept, SnapshotsKept, LinkStep, TriggerStep, StatusStep;
    KeysOf(s);
    RowEffect(s, a);
    RowLink(s, a);
    Unchanged(s, added, {});
    EventSet(s, s, EventOf(s, a), RecordedRow(s, a), added);
    MoreIssued(s, s.issued + {EventOf(s, a)});
  }

  lemma RecordFrame(s: State, a: Arrival)
    ensures var s1 := Record(s, a);
      && s1.runs == s.runs && s1.snapshots == s.snapshots && s1.cursors == s.cursors && s1.scopes == s.scopes
      && EventOf(s, a) in s1.events
  {
    hide RecordedRow, Known, EventOf;
  }

  lemma MoreIssued(s: State, issued: set<Id>)
    requires s.issued <= issued
    ensures RunsForward(s.issued, s.runs, issued, s.runs)
  {
  }

  lemma RowLink(s: State, a: Arrival)
    requires Indexed(s)
    ensures RecordedRow(s, a).run.Some? ==>
      Known(s, a.payload.key).Some? && RecordedRow(s, a).run == s.events[EventOf(s, a)].run
  {
    hide DecisionFor, IsRetry;
  }

  lemma JoinEvolves(s: State, t: State, a: Arrival, e: Id, r: Id)
    requires Evolves(s, t, {(e, r)}, {}) && e in t.events && r in t.runs
    ensures Evolves(s, Join(t, a, e, r).state, {(e, r)}, {})
  {
    hide RunsForward, EventsKept, SnapshotsKept, LinkStep, TriggerStep, StatusStep, UpdateEvent, DispatchEvent;
    EventUpdated(s, t, e, Decision.Queued, EventStatus.Queued, Some(r), {(e, r)});
    EventUpdated(s, t, e, Decision.DuplicateHead, EventStatus.Completed, Some(r), {(e, r)});
  }

  lemma BlockedForEvolves(s: State, t: State, a: Arrival, e: Id, ref: Ref)
    requires a.payload.request.Some? && a.newRun !in s.issued && s.runs.Keys <= s.issued && t.runs == s.runs &&
      e in t.events
    requires Evolves(s, t, {(e, BlockedFor(t, a, e, ref).1)}, {})
    ensures var (t1, b) := BlockedFor(t, a, e, ref);
      && Evolves(s, t1, {(e, b)}, {}) && e in t1.events && b in t1.runs && t1.runs[b].ref == ref &&
        t1.runs[b].status.Blocked?
  {
    hide RunsForward, EventsKept, SnapshotsKept, LinkStep, TriggerStep, StatusStep;
    var (t1, b) := BlockedFor(t, a, e, ref);
    var o := Earliest(t.runs, ref, Blocked);
    if o.None? {
      RunAdded(s, t, b, t1.runs[b], {(e, b)});
    } else {
      var run := t.runs[b];
      if run.trigger.Some? && run.trigger.value != e && run.trigger.value in t.events {
        EventUpdated(s, t, run.trigger.value, Decision.DuplicateHead, EventStatus.Completed, Some(b), {(e, b)});
      }
      RunSet(s, t, b, t1.runs[b], {(e, b)}, {});
    }
  }

  lemma ParkEvolves(s: State, t: State, a: Arrival, e: Id, ref: Ref)
    requires a.payload.request.Some? && a.newRun !in s.issued && s.runs.Keys <= s.issued && t.runs == s.runs &&
      e in t.events
    requires Evolves(s, t, {(e, Park(t, a, e, ref).run.value)}, {})
    ensures var p := Park(t, a, e, ref);
      && Evolves(s, p.state, LinkOf(p), {})
      && p.run.value in p.state.runs && p.state.runs[p.run.value].ref == ref && p.state.runs[p.run.value].status.Blocked?
  {
    hide RunsForward, EventsKept, SnapshotsKept, LinkStep, TriggerStep, StatusStep, BlockedFor;
    BlockedForEvolves(s, t, a, e, ref);
    var (t1, b) := BlockedFor(t, a, e, ref);
    EventUpdated(s, t1, e, Decision.Queued, EventStatus.Validated, Some(b), {(e, b)});
  }

  lemma StartEvolves(s: State, t: State, a: Arrival, e: Id, ref: Ref)
    requires a.payload.request.Some? && a.newRun !in s.issued && s.runs.Keys <= s.issued && e in t.events
    requires Evolves(s, t, {(e, a.newRun)}, {})
    ensures var p := Start(t, a, e, ref);
      && Evolves(s, p.state, LinkOf(p), {})
      && p.run == Some(a.newRun) && a.newRun in p.state.runs && p.state.runs[a.newRun].ref == ref
      && p.state.runs[a.newRun].status.Pending?
  {
    hide RunsForward, EventsKept, SnapshotsKept, LinkStep, TriggerStep, StatusStep;
    var run := NewRun(ref, a.payload.request.value.origin, Some(e), Pending, a.clock.now);
    RunAdded(s, t, a.newRun, run, {(e, a.newRun)});
    EventUpdated(s, CreateRun(t, a.newRun, run), e, Decision.Queued, EventStatus.Queued, Some(a.newRun), {(e, a.newRun)});
  }

  /** A delivery adds at most one link, to a run of its own ref that has not started. */
  lemma ProcessEvolves(s: State, a: Arrival)
    requires Inv(s) && Admissible(s, a) && SamePayload(s, a)
    ensures var p := Process(s, a); Evolves(s, p.state, LinkOf(p), {}) && p.event == EventOf(s, a)
    ensures var p := Process(s, a); p.run.Some? ==>
      && a.payload.request.Some? && p.run.value in p.state.runs &&
        p.state.runs[p.run.value].ref == RequestedRef(a.payload)
      && StatusRank(p.state.runs[p.run.value].status) <= 1
  {
    hide Inv, Record, DecisionFor, WellShaped, RunsForward, EventsKept, SnapshotsKept, LinkStep, TriggerStep,
      StatusStep, Join, Park, Start;
    KeysOf(s);
    RecordKeeps(s, a);
    var s1, d, e := Record(s, a), DecisionFor(s, a), EventOf(s, a);
    RecordEvolves(s, a, {});
    KeysOf(s1);
    if a.payload.request.Some? && (d.Queued? || d.DuplicateHead?) {
      var ref := RequestedRef(a.payload);
      var active := Latest(s1.runs, ref, Pending);
      if active.Some? {
        RecordEvolves(s, a, {(e, active.value)});
        JoinEvolves(s, s1, a, e, active.value);
        JoinShape(s1, a, e, active.value);
      } else if d.Queued? {
        if Latest(s1.runs, ref, Running).Some? {
          ParkShape(s1, a, e, ref);
          RecordEvolves(s, a, {(e, Park(s1, a, e, ref).run.value)});
          ParkEvolves(s, s1, a, e, ref);
        } else {
          RecordEvolves(s, a, {(e, a.newRun)});
          StartEvolves(s, s1, a, e, ref);
          StartShape(s1, a, e, ref);
        }
      }
    }
  }

  /** What a delivery leaves: its row, the link it reports, and a dispatchable run if it asks for one. */
  ghost predicate WellShaped(events: map<Id, Event>, a: Arrival, p: Processed) {
    && RowOf(p.state, a, p.event) && p.state.events.Keys == events.Keys + {p.event}
    && (p.run.Some? ==> LinkedTo(p.state, p.event, p.run.value))
    && (p.enqueue <==> p.dispatchEvent.Some?)
    && (p.enqueue ==>
          && p.run.Some? && p.run.value in p.state.runs && p.state.runs[p.run.value].status.Pending?
          && LinkedTo(p.state, p.dispatchEvent.value, p.run.value)
          && p.state.runs[p.run.value].trigger == p.dispatchEvent
          && p.state.events[p.dispatchEvent.value].status.Queued?
          && (p.state.runs[p.run.value].dispatchedAt.None?
              || a.clock.dispatch - p.state.runs[p.run.value].dispatchedAt.value > 900_000_000))
  }

  lemma JoinShape(s: State, a: Arrival, e: Id, r: Id)
    requires RowOf(s, a, e) && r in s.runs && s.runs[r].status.Pending?
    ensures var p := Join(s, a, e, r);
      p.event == e && p.run == Some(r) && p.state.runs == s.runs && WellShaped(s.events, a, p)
  {
  }

  lemma BlockedForShape(s: State, a: Arrival, e: Id, ref: Ref)
    requires RowOf(s, a, e) && a.payload.request.Some?
    ensures var (s1, b) := BlockedFor(s, a, e, ref); RowOf(s1, a, e) && s1.events.Keys == s.events.Keys
  {
  }

  lemma ParkShape(s: State, a: Arrival, e: Id, ref: Ref)
    requires RowOf(s, a, e) && a.payload.request.Some?
    ensures var p := Park(s, a, e, ref); p.event == e && p.run.Some? && WellShaped(s.events, a, p)
  {
    hide BlockedFor;
    BlockedForShape(s, a, e, ref);
  }

  lemma StartShape(s: State, a: Arrival, e: Id, ref: Ref)
    requires RowOf(s, a, e) && a.payload.request.Some?
    ensures var p := Start(s, a, e, ref); p.event == e && p.run.Some? && WellShaped(s.events, a, p)
  {
  }

  lemma ProcessShape(s: State, a: Arrival)
    requires Inv(s) && Admissible(s, a) && SamePayload(s, a)
    ensures WellShaped(s.events, a, Process(s, a)) && Process(s, a).event == EventOf(s, a)
  {
    hide Inv, Record, DecisionFor, Join, Park, Start, WellShaped;
    KeysOf(s);
    RecordKeeps(s, a);
    RecordShape(s, a);
    var s1, d, e := Record(s, a), DecisionFor(s, a), EventOf(s, a);
    if a.payload.request.Some? && (d.Queued? || d.DuplicateHead?) {
      var ref := RequestedRef(a.payload);
      var active := Latest(s1.runs, ref, Pending);
      if active.Some? {
        JoinShape(s1, a, e, active.value);
      } else if d.Queued? {
        if Latest(s1.runs, ref, Running).Some? { ParkShape(s1, a, e, ref); } else { StartShape(s1, a, e, ref); }
      }
    }
    Shaped(s.events, s1.events, a, Process(s, a));
  }

  lemma RecordShape(s: State, a: Arrival)
    ensures Record(s, a).events.Keys == s.events.Keys + {EventOf(s, a)}
  {
    hide RecordedRow, Known, EventOf;
    assert Record(s, a).events == s.events[EventOf(s, a) := RecordedRow(s, a)];
  }

  lemma Shaped(events: map<Id, Event>, events1: map<Id, Event>, a: Arrival, p: Processed)
    requires events1.Keys == events.Keys + {p.event}
    ensures WellShaped(events1, a, p) ==> WellShaped(events, a, p)
    ensures (RowOf(p.state, a, p.event) && p.run.None? && !p.enqueue && p.dispatchEvent.None?
             && p.state.events == events1) ==>
      WellShaped(events, a, p)
  {
  }

  // ---- the other transactions ------------------------------------------------------------

  lemma SetEvolves(s: State, r: Id, run: Run)
    requires r in s.runs && Forward(s.runs[r], run) && run.trigger == s.runs[r].trigger
    ensures Evolves(s, SetRun(s, r, run), {}, {r})
    ensures run.status == s.runs[r].status || !(run.status.Running? || run.status.Succeeded?) ==>
      Evolves(s, SetRun(s, r, run), {}, {})
  {
    hide RunsForward, EventsKept, SnapshotsKept, LinkStep, TriggerStep, StatusStep;
    Unchanged(s, {}, {});
    Unchanged(s, {}, {r});
    RunSet(s, s, r, run, {}, {r});
    if run.status == s.runs[r].status || !(run.status.Running? || run.status.Succeeded?) {
      RunSet(s, s, r, run, {}, {});
    }
  }

  lemma ClaimEvolves(s: State, r: Id, at: Time, stale: Time)
    ensures Evolves(s, Claim(s, r, at, stale), {}, {})
  {
    hide RunsForward, EventsKept, SnapshotsKept, LinkStep, TriggerStep, StatusStep;
    Unchanged(s, {}, {});
    if Claimable(s, r, stale) { SetEvolves(s, r, s.runs[r].(dispatchedAt := Some(at))); }
  }

  lemma EnqueueFailedEvolves(s: State, e: Id, r: Id)
    ensures Evolves(s, EnqueueFailed(s, e, r), {(e, r)}, {})
  {
    hide RunsForward, EventsKept, SnapshotsKept, LinkStep, TriggerStep, StatusStep;
    Unchanged(s, {(e, r)}, {});
    if e in s.events && r in s.runs {
      var run := s.runs[r].(dispatchedAt := None);
      RunSet(s, s, r, run, {(e, r)}, {});
      EventUpdated(s, SetRun(s, r, run), e, Decision.Queued, EventStatus.Queued, Some(r), {(e, r)});
    }
  }

  lemma ManualEvolves(s: State, ref: Ref, origin: Origin, r: Id, now: Time)
    requires r !in s.issued && s.runs.Keys <= s.issued
    ensures Evolves(s, CreateManual(s, ref, origin, r, now), {}, {})
  {
    hide RunsForward, EventsKept, SnapshotsKept, LinkStep, TriggerStep, StatusStep;
    Unchanged(s, {}, {});
    if ManualAllowed(s, ref) { RunAdded(s, s, r, NewRun(ref, origin, None, Pending, now), {}); }
  }

  lemma CancelEvolves(s: State, r: Id)
    ensures Evolves(s, CancelManual(s, r), {}, {})
  {
    hide EventsKept, SnapshotsKept, LinkStep;
    Unchanged(s, {}, {});
  }

  lemma RunningEvolves(s: State, r: Id, now: Time)
    ensures Evolves(s, MarkRunning(s, r, now), {}, {r})
  {
    hide RunsForward, EventsKept, SnapshotsKept, LinkStep, TriggerStep, StatusStep;
    Unchanged(s, {}, {r});
    if Startable(s, r) {
      SetEvolves(s, r, s.runs[r].(status := Running, startedAt := now, completedAt := None, failure := None));
    }
  }

  lemma FailedEvolves(s: State, r: Id, code: FailureCode, now: Time)
    ensures Evolves(s, MarkFailed(s, r, code, now), {}, {})
  {
    hide RunsForward, EventsKept, SnapshotsKept, LinkStep, TriggerStep, StatusStep;
    Unchanged(s, {}, {});
    if r in s.runs && !s.runs[r].status.Succeeded? {
      SetEvolves(s, r, s.runs[r].(status := RunStatus.Failed, completedAt := Some(now), failure := Some(code)));
    }
  }

  lemma ScopeEvolves(s: State, conn: Id, newScope: Id)
    ensures Evolves(s, EnsureScope(s, conn, newScope), {}, {}) && Evolves(s, SaveScope(s, conn, newScope), {}, {})
  {
    hide RunsForward, EventsKept, SnapshotsKept, LinkStep, TriggerStep, StatusStep;
    Unchanged(s, {}, {});
    MoreIssued(s, s.issued + {newScope});
  }

  lemma CommitEvolves(s: State, r: Id, scope: Id, commit: Sha, x: Id, now: Time)
    requires x !in s.snapshots && SnapshotsSound(s.runs, s.snapshots)
    ensures Evolves(s, CommitSnapshot(s, r, scope, commit, x, now), {}, {r})
  {
    hide EventsKept, LinkStep, TriggerStep, RunsForward, StatusStep;
    Unchanged(s, {}, {r});
    if CommitOutcomeOf(s, r, scope) == Committed {
      var run := s.runs[r].(status := Succeeded, resolved := Some(commit), completedAt := Some(now), failure := None);
      RunSet(s, s, r, run, {}, {r});
      WiderIssued(s, s.runs[r := run], s.issued + {x});
    }
  }

  lemma WiderIssued(s: State, runs: map<Id, Run>, issued: set<Id>)
    requires RunsForward(s.issued, s.runs, s.issued, runs) && s.issued <= issued
    ensures RunsForward(s.issued, s.runs, issued, runs)
  {
  }

  lemma CompleteEvolves(s: State, e: Id, r: Id, x: Id)
    ensures Evolves(s, CompleteEvent(s, e, r, x), {}, {})
  {
    hide RunsForward, EventsKept, SnapshotsKept, LinkStep, TriggerStep, StatusStep;
    Unchanged(s, {}, {});
    if LinkedTo(s, e, r) {
      var ev := s.events[e].(decision := Decision.Queued, status := EventStatus.Completed, snapshot := Some(x));
      EventSet(s, s, e, ev, {});
      assert CompleteEvent(s, e, r, x).events == s.events[e := ev];
    }
  }

  /** Restoring a cursor touches nothing but cursors. */
  lemma RestoreOnlyCursors(s: State, e: Id)
    requires e in s.events
    ensures RestoreCursor(s, e) == s.(cursors := RestoreCursor(s, e).cursors)
  {
  }

  lemma FailWebhookEvolves(s: State, e: Id, r: Id, now: Time)
    ensures Evolves(s, FailWebhook(s, e, r, now), {}, {})
  {
    hide RunsForward, EventsKept, SnapshotsKept, LinkStep, TriggerStep, StatusStep, RestoreCursor;
    Unchanged(s, {}, {});
    FailedEvolves(s, r, SnapshotWriteFailed, now);
    var s1 := if r in s.runs && !IsTerminal(s.runs[r].status) then MarkFailed(s, r, SnapshotWriteFailed, now) else s;
    if LinkedTo(s, e, r) {
      EventUpdated(s, s1, e, Decision.Queued, EventStatus.Failed, None, {});
      RestoreOnlyCursors(UpdateEvent(s1, e, Decision.Queued, EventStatus.Failed, None), e);
    }
  }

  lemma DispatchFailedEvolves(s: State, r: Id, now: Time)
    ensures Evolves(s, DispatchFailed(s, r, now), {}, {})
  {
    hide RunsForward, EventsKept, SnapshotsKept, LinkStep, TriggerStep, StatusStep, RestoreCursor;
    Unchanged(s, {}, {});
    FailedEvolves(s, r, QueueDispatchFailed, now);
    if r in s.runs && s.runs[r].trigger.Some? && s.runs[r].trigger.value in s.events {
      var e := s.runs[r].trigger.value;
      var s1 := MarkFailed(s, r, QueueDispatchFailed, now);
      EventUpdated(s, s1, e, Decision.Queued, EventStatus.Failed, Some(r), {});
      RestoreOnlyCursors(UpdateEvent(s1, e, Decision.Queued, EventStatus.Failed, Some(r)), e);
    }
  }

  lemma NextRunEvolves(s: State, r: Id, t: FollowUpClock)
    requires r in s.runs
    ensures var (s1, next) := NextRun(s, r, t);
      && Evolves(s, s1, {}, {}) && (next.Some? ==> next.value in s1.runs)
  {
    hide RunsForward, EventsKept, SnapshotsKept, LinkStep, TriggerStep, StatusStep;
    Unchanged(s, {}, {});
    var (s1, next) := NextRun(s, r, t);
    if next.Some? && s1 != s {
      var b := next.value;
      var run := s.runs[b].(status := Pending, startedAt := t.release, dispatchedAt := None, completedAt := None,
                            failure := None);
      SetEvolves(s, b, run);
      EventUpdated(s, SetRun(s, b, run), s.runs[b].trigger.value, Decision.Queued, EventStatus.Queued, Some(b), {});
    }
  }

  lemma FollowUpEvolves(s: State, r: Id, e: Option<Id>, t: FollowUpClock)
    ensures Evolves(s, FollowUp(s, r, e, t).0, {}, {})
    ensures var (s', next) := FollowUp(s, r, e, t);
      next.Some? ==> next.value in s'.runs && s'.runs[next.value].status.Pending?
  {
    hide RunsForward, EventsKept, SnapshotsKept, LinkStep, TriggerStep, StatusStep, NextRun;
    Unchanged(s, {}, {});
    if Relevant(s, r, e) {
      NextRunEvolves(s, r, t);
      var (s1, next) := NextRun(s, r, t);
      if next.Some? && Claimable(s1, next.value, t.stale - RETRY_AFTER) {
        RunSet(s, s1, next.value, s1.runs[next.value].(dispatchedAt := Some(t.enqueue)), {}, {});
      }
    }
  }
}
