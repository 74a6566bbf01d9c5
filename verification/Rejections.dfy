/** Deliveries that do not verify: what the service writes for them never outlives its transaction. */
module Rejections {
  import opened Model
  import opened Deciding
  import opened Transactions
  import Effects
  import opened World
  import RunHistory

  ghost predicate NoneRejected(events: map<Id, Event>) {
    forall e :: e in events ==> !events[e].decision.Rejected? && !events[e].status.Rejected?
  }

  lemma UpdateAccepts(t: State, e: Id, d: Decision, st: EventStatus, run: Option<Id>)
    requires NoneRejected(t.events) && e in t.events && !d.Rejected? && !st.Rejected?
    ensures NoneRejected(UpdateEvent(t, e, d, st, run).events)
  {
  }

  lemma ParkAccepts(t: State, a: Arrival, e: Id, ref: Ref)
    requires NoneRejected(t.events) && e in t.events && a.payload.request.Some?
    ensures NoneRejected(Park(t, a, e, ref).state.events)
  {
    hide NoneRejected;
    var b := Earliest(t.runs, ref, Blocked);
    if b.Some? && t.runs[b.value].trigger.Some? && t.runs[b.value].trigger.value in t.events {
      UpdateAccepts(t, t.runs[b.value].trigger.value, Decision.DuplicateHead, EventStatus.Completed, b);
    }
    var (t1, q) := BlockedFor(t, a, e, ref);
    UpdateAccepts(t1, e, Decision.Queued, EventStatus.Validated, Some(q));
  }

  lemma AttachAccepts(t: State, a: Arrival, d: Decision, e: Id)
    requires NoneRejected(t.events) && e in t.events
    ensures NoneRejected(Attach(t, a, d, e).state.events)
  {
    hide NoneRejected, UpdateEvent, DispatchEvent;
    if a.payload.request.Some? {
      var ref := RequestedRef(a.payload);
      var active := Latest(t.runs, ref, Pending);
      if active.Some? {
        UpdateAccepts(t, e, Decision.Queued, EventStatus.Queued, active);
        UpdateAccepts(t, e, Decision.DuplicateHead, EventStatus.Completed, active);
      } else if Latest(t.runs, ref, Running).Some? {
        ParkAccepts(t, a, e, ref);
      } else {
        var t1 := CreateRun(t, a.newRun, NewRun(ref, a.payload.request.value.origin, Some(e), Pending, a.clock.now));
        UpdateAccepts(t1, e, Decision.Queued, EventStatus.Queued, Some(a.newRun));
      }
    }
  }

  lemma RecordAccepts(s: State, a: Arrival)
    requires NoneRejected(s.events)
    ensures NoneRejected(Record(s, a).events) && EventOf(s, a) in Record(s, a).events
  {
    hide IsRetry, Known, EventOf, RecordedRow;
    RowAccepts(s, a);
  }

  lemma RowAccepts(s: State, a: Arrival)
    ensures var ev := RecordedRow(s, a); !ev.decision.Rejected? && !ev.status.Rejected?
  {
    hide IsRetry, CursorHead;
  }

  lemma ProcessAccepts(s: State, a: Arrival)
    requires NoneRejected(s.events)
    ensures NoneRejected(Process(s, a).state.events)
  {
    hide NoneRejected, Attach, Record, DecisionFor, EventOf;
    RecordAccepts(s, a);
    AttachAccepts(Record(s, a), a, DecisionFor(s, a), EventOf(s, a));
  }

  lemma FailWebhookAccepts(s: State, e: Id, r: Id, now: Time)
    requires NoneRejected(s.events)
    ensures NoneRejected(FailWebhook(s, e, r, now).events)
  {
    hide RestoreCursor, NoneRejected;
    var s1 := if r in s.runs && !IsTerminal(s.runs[r].status) then MarkFailed(s, r, SnapshotWriteFailed, now) else s;
    if LinkedTo(s, e, r) {
      Effects.RestoreOnlyCursors(UpdateEvent(s1, e, Decision.Queued, EventStatus.Failed, None), e);
      UpdateAccepts(s1, e, Decision.Queued, EventStatus.Failed, None);
    }
  }

  lemma DispatchFailedAccepts(s: State, p: Id, now: Time)
    requires NoneRejected(s.events)
    ensures NoneRejected(DispatchFailed(s, p, now).events)
  {
    hide RestoreCursor, NoneRejected;
    var s1 := MarkFailed(s, p, QueueDispatchFailed, now);
    if p in s.runs && s.runs[p].trigger.Some? && s.runs[p].trigger.value in s.events {
      var e := s.runs[p].trigger.value;
      Effects.RestoreOnlyCursors(UpdateEvent(s1, e, Decision.Queued, EventStatus.Failed, Some(p)), e);
      UpdateAccepts(s1, e, Decision.Queued, EventStatus.Failed, Some(p));
    }
  }

  lemma FollowUpAccepts(s: State, r: Id, e: Option<Id>, t: FollowUpClock)
    requires NoneRejected(s.events)
    ensures NoneRejected(FollowUp(s, r, e, t).0.events)
  {
    hide NextRun, NoneRejected;
    if Relevant(s, r, e) { NextRunAccepts(s, r, t); }
  }

  lemma NextRunAccepts(s: State, r: Id, t: FollowUpClock)
    requires r in s.runs && NoneRejected(s.events)
    ensures NoneRejected(NextRun(s, r, t).0.events)
  {
    hide AnotherActive, NoneRejected;
    var (s1, next) := NextRun(s, r, t);
    if s1 != s {
      UpdateAccepts(Release(s, next.value, t.release), s.runs[next.value].trigger.value, Decision.Queued,
                    EventStatus.Queued, next);
    }
  }

  lemma BuildEvents(s: State, r: Id, scope: Id, commit: Sha, x: Id, code: FailureCode, now: Time)
    ensures MarkRunning(s, r, now).events == s.events && MarkFailed(s, r, code, now).events == s.events
    ensures CommitSnapshot(s, r, scope, commit, x, now).events == s.events && EnsureScope(s, r, x).events == s.events
  {
    hide CommitOutcomeOf;
  }

  lemma CompleteAccepts(s: State, e: Id, r: Id, x: Id)
    requires NoneRejected(s.events)
    ensures NoneRejected(CompleteEvent(s, e, r, x).events)
  {
  }

  lemma WorkAccepts(w: World, k: Worker, c: Choice)
    requires NoneRejected(w.db.events)
    ensures NoneRejected(DbAfter(w.db, w.queueConfigured, k, c).events)
  {
    hide FailWebhook, DispatchFailed, FollowUp, CompleteEvent, NoneRejected, MarkRunning, MarkFailed, CommitSnapshot,
      EnsureScope;
    var r, now := k.task.run, c.clock.check;
    match k.phase
    case Starting(_) => BuildEvents(w.db, r, 0, "", 0, c.code, now);
    case Scoping(_, _, _) => BuildEvents(w.db, ConnOf(w.db, r), 0, "", c.newId, c.code, now);
    case Committing(_, _, commit, scope) => BuildEvents(w.db, r, scope, commit, c.newId, c.code, now);
    case EmptyResult(_, _) => BuildEvents(w.db, r, 0, "", 0, NoIncludedFiles, now);
    case FailingBuild(code) => BuildEvents(w.db, r, 0, "", 0, code, now);
    case Built(x) => if k.task.WebhookTask? { CompleteAccepts(w.db, k.task.event, r, x); }
    case Failing =>
      if k.task.WebhookTask? { FailWebhookAccepts(w.db, k.task.event, r, now); }
      else { BuildEvents(w.db, r, 0, "", 0, c.code, now); }
    case DispatchFailing(next) => DispatchFailedAccepts(w.db, next, now);
    case FollowingUp => FollowUpAccepts(w.db, r, TaskEvent(k.task), c.clock);
    case _ =>
  }

  lemma RouteAccepts(w: World, st: Step)
    requires Enabled(w, st) && !st.Deliver? && !st.Work? && NoneRejected(w.db.events)
    ensures NoneRejected(Next(w, st).db.events)
  {
    hide Next, ManualAllowed, Claimable, Cancellable;
    RunHistory.RouteDb(w, st);
  }

  lemma NextAccepts(w: World, st: Step)
    requires Enabled(w, st) && NoneRejected(w.db.events)
    ensures NoneRejected(Next(w, st).db.events)
  {
    hide NoneRejected, Process, DbAfter, AfterDelivery, AfterWork;
    if st.Deliver? {
      ProcessAccepts(w.db, st.arrival);
      RunHistory.AfterDeliveryDb(w, st.arrival, st.version);
    } else if st.Work? {
      WorkAccepts(w, w.workers[st.worker], st.choice);
      RunHistory.AfterWorkDb(w, st.worker, st.choice);
    } else {
      RouteAccepts(w, st);
    }
  }

  /** Although every refused delivery writes a REJECTED row or mark, none is ever stored: no reachable world has an
      event whose decision or status is REJECTED. */
  lemma {:induction false} NothingRejected(ws: seq<World>, steps: seq<Step>, i: nat)
    requires Execution(ws, steps) && i < |ws|
    ensures forall e :: e in ws[i].db.events ==>
      !ws[i].db.events[e].decision.Rejected? && !ws[i].db.events[e].status.Rejected?
  {
    hide Enabled, Next;
    if i > 0 {
      NothingRejected(ws, steps, i - 1);
      NextAccepts(ws[i - 1], steps[i - 1]);
    }
  }

  /** So the retry test never succeeds for a REJECTED status: what is retried has a queued decision, and has FAILED
      or waits with its PENDING run for a dispatch. */
  lemma RetriesWereQueued(ws: seq<World>, steps: seq<Step>, i: nat, e: Id, conn: Id, at: Time)
    requires Execution(ws, steps) && i < |ws| && e in ws[i].db.events && Retryable(ws[i].db, e, conn, at)
    ensures var ev := ws[i].db.events[e];
      && ev.decision.Queued?
      && (ev.status.Failed? || (ev.status.Queued? && ev.run.Some? && ev.run.value in ws[i].db.runs
                                && ws[i].db.runs[ev.run.value].status.Pending?))
  {
    hide Execution;
    NothingRejected(ws, steps, i);
  }

  /** The writes are real: a refused delivery with a new id stores a REJECTED row, before the session takes it back. */
  lemma RefusalWrites(s: State, key: DeliveryKey, newEvent: Id, at: Time)
    requires Known(s, key).None?
    ensures var s' := MarkRejected(s, key, newEvent, at);
      && newEvent in s'.events && s'.events[newEvent].status.Rejected? && !NoneRejected(s'.events)
      && Reject(s, key, newEvent, at) == s
  {
    assert !NoneRejected(MarkRejected(s, key, newEvent, at).events) by {
      assert newEvent in MarkRejected(s, key, newEvent, at).events;
    }
  }
}
