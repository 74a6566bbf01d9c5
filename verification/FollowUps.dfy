/** The BLOCKED follow-up behind a finished run: when it can still be released, and what strands it. */
module FollowUps {
  import opened Model
  import opened Deciding
  import opened Transactions
  import opened Invariant
  import Effects
  import opened World
  import opened Reachable
  import Steps
  import RunHistory

  /** A BLOCKED run can be released only while its trigger event is VALIDATED and links back to it. */
  predicate Releasable(s: State, b: Id)
    requires b in s.runs
  {
    var t := s.runs[b].trigger;
    t.Some? && LinkedTo(s, t.value, b) && s.events[t.value].status.Validated?
  }

  ghost predicate FollowUpsReady(s: State) {
    forall b :: b in s.runs && s.runs[b].status.Blocked? ==> Releasable(s, b)
  }

  ghost predicate TriggersBlocked(s: State, e: Id) {
    exists b :: b in s.runs && s.runs[b].status.Blocked? && s.runs[b].trigger == Some(e)
  }

  /** The steps that strand a follow-up: a repeated delivery of its trigger event, and a failed send for
      another run that the same event was linked to or triggered. */
  ghost predicate Strands(w: World, st: Step) {
    match st
    case Deliver(a, _) => Known(w.db, a.payload.key).Some? && TriggersBlocked(w.db, Known(w.db, a.payload.key).value)
    case EnqueueFailure(e, r, _) => r in w.db.runs && TriggersBlocked(w.db, e)
    case Work(k, c) =>
      && k in w.workers && w.workers[k].phase.DispatchFailing? && !c.outcome.Error?
      && var p := w.workers[k].phase.next;
      && p in w.db.runs && w.db.runs[p].trigger.Some? && TriggersBlocked(w.db, w.db.runs[p].trigger.value)
    case _ => false
  }

  // ---- transactions that leave the follow-ups and their triggers alone -------------------

  ghost predicate BlockedKept(s: State, s': State, b: Id)
    requires b in s'.runs
  {
    && b in s.runs && s.runs[b].status.Blocked? && s'.runs[b].trigger == s.runs[b].trigger
    && (s.runs[b].trigger.Some? && s.runs[b].trigger.value in s.events ==>
          && s.runs[b].trigger.value in s'.events
          && s'.events[s.runs[b].trigger.value].run == s.events[s.runs[b].trigger.value].run
          && s'.events[s.runs[b].trigger.value].status == s.events[s.runs[b].trigger.value].status)
  }

  ghost predicate LeavesBlocked(s: State, s': State) {
    forall b :: b in s'.runs && s'.runs[b].status.Blocked? ==> BlockedKept(s, s', b)
  }

  lemma StillReady(s: State, s': State)
    requires FollowUpsReady(s) && LeavesBlocked(s, s')
    ensures FollowUpsReady(s')
  {
    forall b | b in s'.runs && s'.runs[b].status.Blocked? ensures Releasable(s', b) {
      assert BlockedKept(s, s', b);
      assert Releasable(s, b);
    }
  }

  lemma RunLeavesBlocked(s: State, r: Id, run: Run)
    requires !run.status.Blocked?
    ensures LeavesBlocked(s, s) && LeavesBlocked(s, SetRun(s, r, run)) && LeavesBlocked(s, CreateRun(s, r, run))
  {
  }

  lemma EventLeavesBlocked(s: State, t: State, e: Id, d: Decision, st: EventStatus, run: Option<Id>)
    requires LeavesBlocked(s, t) && e in t.events && !TriggersBlocked(s, e)
    ensures LeavesBlocked(s, UpdateEvent(t, e, d, st, run))
  {
    var t' := UpdateEvent(t, e, d, st, run);
    forall b | b in t'.runs && t'.runs[b].status.Blocked? ensures BlockedKept(s, t', b) {
      assert BlockedKept(s, t, b);
    }
  }

  /** An event linked to a run that is not BLOCKED triggers no ready follow-up. */
  lemma LinkedElsewhere(s: State, e: Id, r: Id)
    requires FollowUpsReady(s) && LinkedTo(s, e, r) && (r in s.runs ==> !s.runs[r].status.Blocked?)
    ensures !TriggersBlocked(s, e)
  {
    forall b | b in s.runs && s.runs[b].status.Blocked? ensures s.runs[b].trigger != Some(e) {
      assert Releasable(s, b);
    }
  }

  // ---- deliveries ------------------------------------------------------------------------

  lemma RecordLeavesBlocked(s: State, a: Arrival)
    requires Indexed(s) && (Known(s, a.payload.key).None? ==> !TriggersBlocked(s, a.newEvent))
    requires Known(s, a.payload.key).Some? ==> !TriggersBlocked(s, Known(s, a.payload.key).value)
    ensures LeavesBlocked(s, Record(s, a)) && Record(s, a).runs == s.runs && EventOf(s, a) in Record(s, a).events
  {
    hide RecordedRow, Indexes;
    var s' := Record(s, a);
    assert !TriggersBlocked(s, EventOf(s, a));
    forall b | b in s'.runs && s'.runs[b].status.Blocked? ensures BlockedKept(s, s', b) {
    }
  }

  lemma SameTables(s: State, t: State, t': State)
    requires LeavesBlocked(s, t) && t'.runs == t.runs && t'.events == t.events
    ensures LeavesBlocked(s, t')
  {
    forall b | b in t'.runs && t'.runs[b].status.Blocked? ensures BlockedKept(s, t', b) {
      assert BlockedKept(s, t, b);
    }
  }

  lemma JoinReady(s: State, a: Arrival, e: Id, r: Id)
    requires FollowUpsReady(s) && e in s.events && r in s.runs && !TriggersBlocked(s, e)
    ensures FollowUpsReady(Join(s, a, e, r).state)
  {
    hide FollowUpsReady, LeavesBlocked, TriggersBlocked, DispatchEvent;
    RunLeavesBlocked(s, r, NewRun(s.runs[r].ref, ManualInitial, None, Pending, 0));
    var s' := Join(s, a, e, r).state;
    if DispatchEvent(s, r, a.clock.dispatch) == Some(e) {
      EventLeavesBlocked(s, s, e, Decision.Queued, EventStatus.Queued, Some(r));
      SameTables(s, UpdateEvent(s, e, Decision.Queued, EventStatus.Queued, Some(r)), s');
    } else {
      EventLeavesBlocked(s, s, e, Decision.DuplicateHead, EventStatus.Completed, Some(r));
    }
    StillReady(s, s');
  }

  lemma StartReady(s: State, a: Arrival, e: Id, ref: Ref)
    requires FollowUpsReady(s) && a.payload.request.Some? && e in s.events && !TriggersBlocked(s, e)
    ensures FollowUpsReady(Start(s, a, e, ref).state)
  {
    hide FollowUpsReady, LeavesBlocked, TriggersBlocked;
    var run := NewRun(ref, a.payload.request.value.origin, Some(e), Pending, a.clock.now);
    var s1 := CreateRun(s, a.newRun, run);
    RunLeavesBlocked(s, a.newRun, run);
    EventLeavesBlocked(s, s1, e, Decision.Queued, EventStatus.Queued, Some(a.newRun));
    SameTables(s, UpdateEvent(s1, e, Decision.Queued, EventStatus.Queued, Some(a.newRun)), Start(s, a, e, ref).state);
    StillReady(s, Start(s, a, e, ref).state);
  }

  /** Parking makes the new event the trigger; the one it replaces triggers no other follow-up. */
  lemma ParkReady(s: State, a: Arrival, e: Id, ref: Ref)
    requires FollowUpsReady(s) && a.payload.request.Some? && e in s.events && !TriggersBlocked(s, e)
    ensures FollowUpsReady(Park(s, a, e, ref).state)
  {
    hide TriggersBlocked, FollowUpsReady;
    var s' := Park(s, a, e, ref).state;
    var b := Earliest(s.runs, ref, Blocked);
    if b.Some? { ReadyOf(s, b.value); }
    forall q | q in s'.runs && s'.runs[q].status.Blocked? ensures Releasable(s', q) {
      if q in s.runs && b != Some(q) && s.runs[q].status.Blocked? {
        ReadyOf(s, q);
        NotTrigger(s, e, q);
      }
    }
    AllReady(s');
  }

  lemma AllReady(s: State)
    requires forall b :: b in s.runs && s.runs[b].status.Blocked? ==> Releasable(s, b)
    ensures FollowUpsReady(s)
  {
  }

  lemma NotTrigger(s: State, e: Id, q: Id)
    requires !TriggersBlocked(s, e) && q in s.runs && s.runs[q].status.Blocked?
    ensures s.runs[q].trigger != Some(e)
  {
  }

  lemma AttachReady(s: State, a: Arrival, d: Decision, e: Id)
    requires FollowUpsReady(s) && e in s.events && !TriggersBlocked(s, e)
    ensures FollowUpsReady(Attach(s, a, d, e).state)
  {
    hide FollowUpsReady, TriggersBlocked, Join, Park, Start;
    if a.payload.request.Some? && (d.Queued? || d.DuplicateHead?) {
      var ref := RequestedRef(a.payload);
      var active := Latest(s.runs, ref, Pending);
      if active.Some? {
        JoinReady(s, a, e, active.value);
      } else if d.Queued? {
        if Latest(s.runs, ref, Running).Some? { ParkReady(s, a, e, ref); } else { StartReady(s, a, e, ref); }
      }
    }
  }

  /** A repeat of a ready follow-up's trigger is not retryable: it completes the event and attaches nothing. */
  lemma RepeatStrands(s: State, a: Arrival, b: Id)
    requires FollowUpsReady(s) && Known(s, a.payload.key).Some?
    requires b in s.runs && s.runs[b].status.Blocked? && s.runs[b].trigger == Known(s, a.payload.key)
    ensures var s' := Process(s, a).state; b in s'.runs && s'.runs[b].status.Blocked? && !Releasable(s', b)
  {
    hide FollowUpsReady, Latest, Join, Park, Start;
    ReadyOf(s, b);
    assert !IsRetry(s, a);
    assert !DecisionFor(s, a).Queued? && !DecisionFor(s, a).DuplicateHead?;
  }

  lemma ReadyOf(s: State, b: Id)
    requires FollowUpsReady(s) && b in s.runs && s.runs[b].status.Blocked?
    ensures Releasable(s, b)
  {
  }

  lemma ProcessReady(s: State, a: Arrival)
    requires Inv(s) && Admissible(s, a) && SamePayload(s, a) && FollowUpsReady(s)
    ensures FollowUpsReady(Process(s, a).state)
      <==> !(Known(s, a.payload.key).Some? && TriggersBlocked(s, Known(s, a.payload.key).value))
  {
    hide Inv, FollowUpsReady, Attach, Record, DecisionFor, Known, LeavesBlocked;
    KeysOf(s);
    var known := Known(s, a.payload.key);
    if known.Some? && TriggersBlocked(s, known.value) {
      var b :| b in s.runs && s.runs[b].status.Blocked? && s.runs[b].trigger == known;
      RepeatStrands(s, a, b);
      if FollowUpsReady(Process(s, a).state) { ReadyOf(Process(s, a).state, b); }
    } else {
      NewTriggersNothing(s, a.newEvent);
      RecordLeavesBlocked(s, a);
      StillReady(s, Record(s, a));
      SameTriggers(s, Record(s, a), EventOf(s, a));
      EventOfCases(s, a);
      AttachReady(Record(s, a), a, DecisionFor(s, a), EventOf(s, a));
    }
  }

  lemma EventOfCases(s: State, a: Arrival)
    ensures EventOf(s, a) == if Known(s, a.payload.key).Some? then Known(s, a.payload.key).value else a.newEvent
  {
  }

  lemma NewTriggersNothing(s: State, e: Id)
    requires Inv(s) && e !in s.issued
    ensures !TriggersBlocked(s, e)
  {
    hide Inv;
    KeysOf(s);
    forall b | b in s.runs && s.runs[b].status.Blocked? && s.runs[b].trigger == Some(e) ensures false {
      TriggerOf(s, b);
    }
  }

  lemma SameTriggers(s: State, s': State, e: Id)
    requires s'.runs == s.runs
    ensures TriggersBlocked(s', e) == TriggersBlocked(s, e)
  {
  }

  // ---- routes ----------------------------------------------------------------------------

  lemma ClaimLeavesBlocked(s: State, r: Id, at: Time, stale: Time)
    ensures LeavesBlocked(s, Claim(s, r, at, stale))
  {
  }

  lemma ManualLeavesBlocked(s: State, ref: Ref, origin: Origin, r: Id, at: Time)
    ensures LeavesBlocked(s, CreateManual(s, ref, origin, r, at)) && LeavesBlocked(s, CancelManual(s, r))
  {
    hide ManualAllowed;
  }

  lemma EnqueueFailedReady(s: State, e: Id, r: Id)
    requires FollowUpsReady(s) && e in s.events && (r in s.runs ==> !s.runs[r].status.Blocked?)
    ensures FollowUpsReady(EnqueueFailed(s, e, r)) <==> !(r in s.runs && TriggersBlocked(s, e))
  {
    hide FollowUpsReady, LeavesBlocked, TriggersBlocked, Releasable;
    if r !in s.runs {
    } else {
      var s1 := SetRun(s, r, s.runs[r].(dispatchedAt := None));
      RunLeavesBlocked(s, r, s.runs[r].(dispatchedAt := None));
      if TriggersBlocked(s, e) {
        FailedTrigger(s, s1, e, EventStatus.Queued, r);
      } else {
        EventLeavesBlocked(s, s1, e, Decision.Queued, EventStatus.Queued, Some(r));
        StillReady(s, UpdateEvent(s1, e, Decision.Queued, EventStatus.Queued, Some(r)));
      }
    }
  }

  /** Taking the trigger of a follow-up out of VALIDATED strands it. */
  lemma FailedTrigger(s: State, t: State, e: Id, st: EventStatus, r: Id)
    requires TriggersBlocked(s, e) && e in t.events && !st.Validated?
    requires r in s.runs && !s.runs[r].status.Blocked? && r in t.runs && t.runs == s.runs[r := t.runs[r]]
    ensures var events := UpdateEvent(t, e, Decision.Queued, st, Some(r)).events;
      forall s': State :: s'.runs == t.runs && s'.events == events ==> !FollowUpsReady(s')
  {
    var b :| b in s.runs && s.runs[b].status.Blocked? && s.runs[b].trigger == Some(e);
    forall s': State | s'.runs == t.runs && s'.events == UpdateEvent(t, e, Decision.Queued, st, Some(r)).events
      ensures !FollowUpsReady(s')
    {
      assert b in s'.runs && s'.runs[b].status.Blocked? && !Releasable(s', b);
    }
  }

  lemma RouteReady(w: World, st: Step)
    requires Sound(w) && Enabled(w, st) && !st.Deliver? && !st.Work? && FollowUpsReady(w.db)
    ensures FollowUpsReady(Next(w, st).db) <==> !Strands(w, st)
  {
    hide Sound, Inv, Next, FollowUpsReady, LeavesBlocked, TriggersBlocked, Claim, CreateManual, EnqueueFailed,
      CancelManual;
    Steps.InvOf(w);
    RunHistory.RouteDb(w, st);
    match st
    case ClaimDispatch(_, r, at) =>
      ClaimLeavesBlocked(w.db, r, at, at - RETRY_AFTER);
      StillReady(w.db, Next(w, st).db);
    case EnqueueFailure(e, r, _) =>
      DispatchEvents(w, e, r);
      EnqueueFailedReady(w.db, e, r);
    case RequestManual(ref, origin, r, at) =>
      ManualLeavesBlocked(w.db, ref, origin, r, at);
      StillReady(w.db, Next(w, st).db);
    case WithdrawManual(r) =>
      ManualLeavesBlocked(w.db, Ref(0, Branch, ""), ManualInitial, r, 0);
      StillReady(w.db, Next(w, st).db);
    case SaveScopeRules(_, _) =>
      RunLeavesBlocked(w.db, 0, NewRun(Ref(0, Branch, ""), ManualInitial, None, Pending, 0));
      SameTables(w.db, w.db, Next(w, st).db);
      StillReady(w.db, Next(w, st).db);
    case _ =>
  }

  lemma DispatchEvents(w: World, e: Id, r: Id)
    requires Sound(w) && (e, r) in w.dispatches
    ensures e in w.db.events && (r in w.db.runs ==> !w.db.runs[r].status.Blocked?)
  {
    hide Inv, AnnouncedSound, BegunSound, BuiltSound, WorkersSound, LinksCover;
  }

  // ---- workers ---------------------------------------------------------------------------

  lemma CompleteReady(s: State, e: Id, r: Id, x: Id)
    requires FollowUpsReady(s) && (r in s.runs ==> !s.runs[r].status.Blocked?)
    ensures FollowUpsReady(CompleteEvent(s, e, r, x))
  {
    hide FollowUpsReady, TriggersBlocked;
    var s' := CompleteEvent(s, e, r, x);
    if LinkedTo(s, e, r) {
      LinkedElsewhere(s, e, r);
      RunLeavesBlocked(s, r, NewRun(Ref(0, Branch, ""), ManualInitial, None, Pending, 0));
      forall b | b in s'.runs && s'.runs[b].status.Blocked? ensures BlockedKept(s, s', b) { NotTrigger(s, e, b); }
      StillReady(s, s');
    }
  }

  lemma MarkFailedLeavesBlocked(s: State, r: Id, code: FailureCode, now: Time)
    ensures LeavesBlocked(s, MarkFailed(s, r, code, now))
  {
  }

  lemma FailWebhookReady(s: State, e: Id, r: Id, now: Time)
    requires FollowUpsReady(s) && (r in s.runs ==> !s.runs[r].status.Blocked?)
    ensures FollowUpsReady(FailWebhook(s, e, r, now))
  {
    hide FollowUpsReady, TriggersBlocked, LeavesBlocked, RestoreCursor;
    var s1 := if r in s.runs && !IsTerminal(s.runs[r].status) then MarkFailed(s, r, SnapshotWriteFailed, now) else s;
    RunLeavesBlocked(s, r, NewRun(Ref(0, Branch, ""), ManualInitial, None, Pending, 0));
    MarkFailedLeavesBlocked(s, r, SnapshotWriteFailed, now);
    StillReady(s, s1);
    if LinkedTo(s, e, r) && !(r in s.runs && s.runs[r].status.Succeeded?) {
      LinkedElsewhere(s, e, r);
      var s2 := UpdateEvent(s1, e, Decision.Queued, EventStatus.Failed, None);
      EventLeavesBlocked(s, s1, e, Decision.Queued, EventStatus.Failed, None);
      Effects.RestoreOnlyCursors(s2, e);
      SameTables(s, s2, RestoreCursor(s2, e));
      StillReady(s, RestoreCursor(s2, e));
    }
  }

  lemma DispatchFailedReady(s: State, p: Id, now: Time)
    requires Inv(s) && FollowUpsReady(s) && (p in s.runs ==> !s.runs[p].status.Blocked?)
    ensures FollowUpsReady(DispatchFailed(s, p, now))
      <==> !(p in s.runs && s.runs[p].trigger.Some? && TriggersBlocked(s, s.runs[p].trigger.value))
  {
    hide Inv, FollowUpsReady, TriggersBlocked, LeavesBlocked, RestoreCursor;
    if p in s.runs {
      TriggerOf(s, p);
      var s1 := MarkFailed(s, p, QueueDispatchFailed, now);
      MarkFailedLeavesBlocked(s, p, QueueDispatchFailed, now);
      if s.runs[p].trigger.None? {
        StillReady(s, s1);
      } else {
        var e := s.runs[p].trigger.value;
        var s2 := UpdateEvent(s1, e, Decision.Queued, EventStatus.Failed, Some(p));
        Effects.RestoreOnlyCursors(s2, e);
        if TriggersBlocked(s, e) {
          MarkFailedRuns(s, p, QueueDispatchFailed, now);
          FailedTrigger(s, s1, e, EventStatus.Failed, p);
        } else {
          EventLeavesBlocked(s, s1, e, Decision.Queued, EventStatus.Failed, Some(p));
          SameTables(s, s2, RestoreCursor(s2, e));
          StillReady(s, RestoreCursor(s2, e));
        }
      }
    }
  }

  lemma MarkFailedRuns(s: State, p: Id, code: FailureCode, now: Time)
    requires p in s.runs
    ensures var s1 := MarkFailed(s, p, code, now);
      p in s1.runs && s1.runs == s.runs[p := s1.runs[p]] && s1.events == s.events
  {
  }

  lemma FollowUpReady(s: State, r: Id, e: Option<Id>, t: FollowUpClock)
    requires FollowUpsReady(s)
    ensures FollowUpsReady(FollowUp(s, r, e, t).0)
  {
    hide FollowUpsReady, LeavesBlocked, NextRun;
    RunLeavesBlocked(s, r, NewRun(Ref(0, Branch, ""), ManualInitial, None, Pending, 0));
    if Relevant(s, r, e) {
      var (s1, next) := NextRun(s, r, t);
      NextRunReady(s, r, t);
      if next.Some? && Claimable(s1, next.value, t.stale - RETRY_AFTER) {
        RunLeavesBlocked(s1, next.value, s1.runs[next.value].(dispatchedAt := Some(t.enqueue)));
        StillReady(s1, FollowUp(s, r, e, t).0);
      }
    }
  }

  /** Releasing one follow-up requeues its trigger, which triggers no other. */
  lemma NextRunReady(s: State, r: Id, t: FollowUpClock)
    requires FollowUpsReady(s) && r in s.runs
    ensures FollowUpsReady(NextRun(s, r, t).0)
  {
    hide FollowUpsReady, AnotherActive;
    var (s', next) := NextRun(s, r, t);
    if s' != s {
      forall q | q in s'.runs && s'.runs[q].status.Blocked? ensures Releasable(s', q) { ReadyOf(s, q); }
      AllReady(s');
    }
  }

  lemma BuildLeavesBlocked(s: State, r: Id, scope: Id, commit: Sha, x: Id, now: Time)
    ensures LeavesBlocked(s, MarkRunning(s, r, now)) && LeavesBlocked(s, CommitSnapshot(s, r, scope, commit, x, now))
    ensures LeavesBlocked(s, EnsureScope(s, r, x))
  {
    hide CommitOutcomeOf;
  }

  lemma BuildReady(w: World, k: Worker, c: Choice)
    requires FollowUpsReady(w.db) && (k.phase.Starting? || k.phase.Scoping? || k.phase.Committing?)
    ensures FollowUpsReady(DbAfter(w.db, w.queueConfigured, k, c))
  {
    hide FollowUpsReady, LeavesBlocked, MarkRunning, CommitSnapshot, EnsureScope;
    var s, r, now := w.db, k.task.run, c.clock.check;
    match k.phase
    case Starting(_) =>
      BuildLeavesBlocked(s, r, 0, "", 0, now);
      StillReady(s, MarkRunning(s, r, now));
    case Scoping(_, _, _) =>
      BuildLeavesBlocked(s, ConnOf(s, r), 0, "", c.newId, now);
      StillReady(s, EnsureScope(s, ConnOf(s, r), c.newId));
    case Committing(_, _, commit, scope) =>
      BuildLeavesBlocked(s, r, scope, commit, c.newId, now);
      StillReady(s, CommitSnapshot(s, r, scope, commit, c.newId, now));
    case _ =>
  }

  lemma EndReady(w: World, k: Worker, c: Choice)
    requires FollowUpsReady(w.db) && !k.phase.DispatchFailing?
    requires k.task.run in w.db.runs ==> !w.db.runs[k.task.run].status.Blocked?
    ensures FollowUpsReady(DbAfter(w.db, w.queueConfigured, k, c))
  {
    hide FollowUpsReady, LeavesBlocked, TriggersBlocked, MarkFailed, MarkRunning, CommitSnapshot, EnsureScope,
      FollowUp, CompleteEvent, FailWebhook;
    var s, r, now := w.db, k.task.run, c.clock.check;
    match k.phase
    case EmptyResult(_, _) =>
      MarkFailedLeavesBlocked(s, r, NoIncludedFiles, now);
      StillReady(s, MarkFailed(s, r, NoIncludedFiles, now));
    case FailingBuild(code) =>
      MarkFailedLeavesBlocked(s, r, code, now);
      StillReady(s, MarkFailed(s, r, code, now));
    case Built(x) => if k.task.WebhookTask? { CompleteReady(s, k.task.event, r, x); }
    case Failing =>
      if k.task.WebhookTask? {
        FailWebhookReady(s, k.task.event, r, now);
      } else {
        MarkFailedLeavesBlocked(s, r, c.code, now);
        StillReady(s, MarkFailed(s, r, c.code, now));
      }
    case FollowingUp => FollowUpReady(s, r, TaskEvent(k.task), c.clock);
    case _ => if k.phase.Starting? || k.phase.Scoping? || k.phase.Committing? { BuildReady(w, k, c); }
  }

  lemma WorkReady(w: World, st: Step)
    requires Sound(w) && Enabled(w, st) && st.Work? && FollowUpsReady(w.db)
    ensures FollowUpsReady(Next(w, st).db) <==> !Strands(w, st)
  {
    hide Sound, Inv, FollowUpsReady, TriggersBlocked, DispatchFailed, AfterWork, Links;
    var k, c := w.workers[st.worker], st.choice;
    Steps.InvOf(w);
    RunHistory.AfterWorkDb(w, st.worker, c);
    WorkerDispatched(w, st.worker);
    if k.phase.DispatchFailing? {
      DispatchFailedReady(w.db, k.phase.next, c.clock.check);
    } else {
      EndReady(w, k, c);
    }
  }

  lemma WorkerDispatched(w: World, k: Id)
    requires Sound(w) && k in w.workers
    ensures w.workers[k].task.run in w.db.runs ==> !w.db.runs[w.workers[k].task.run].status.Blocked?
    ensures w.workers[k].phase.DispatchFailing? && w.workers[k].phase.next in w.db.runs ==>
      !w.db.runs[w.workers[k].phase.next].status.Blocked?
  {
    hide Inv, AnnouncedSound, BegunSound, BuiltSound, LinksSound, LinksCover, PayloadsSound;
    assert TaskSound(w.db, w.links, w.workers[k].task);
    assert PhaseSound(w.db, w.remote, w.links, w.begun, w.workers[k].task.run, w.workers[k].phase);
  }

  /** Exactly the stranding steps leave a BLOCKED run that no follow-up step will ever release by itself. */
  lemma StrandsExactly(w: World, st: Step)
    requires Sound(w) && Enabled(w, st) && FollowUpsReady(w.db)
    ensures FollowUpsReady(Next(w, st).db) <==> !Strands(w, st)
  {
    hide Sound, Inv, FollowUpsReady, TriggersBlocked, AfterDelivery, AfterWork, CanDeliver, Process;
    if st.Deliver? {
      Steps.InvOf(w);
      Steps.DeliveryAdmissible(w, st.arrival, st.version);
      ProcessReady(w.db, st.arrival);
      RunHistory.AfterDeliveryDb(w, st.arrival, st.version);
    } else if st.Work? {
      WorkReady(w, st);
    } else {
      RouteReady(w, st);
    }
  }

  /** A stranded follow-up stays BLOCKED through every follow-up step. */
  lemma StrandedStays(s: State, r: Id, e: Option<Id>, t: FollowUpClock, b: Id)
    requires b in s.runs && s.runs[b].status.Blocked? && !Releasable(s, b)
    ensures var s' := FollowUp(s, r, e, t).0; b in s'.runs && s'.runs[b] == s.runs[b]
  {
    hide AnotherActive;
  }
}
