/** What one delivery leaves in its own row and elsewhere, and what a finished run's follow-up sends, in terms of the rows
    there were: markers, times, heads and statuses. */
module Redelivery {
  import opened Model
  import opened Deciding
  import opened Transactions
  import opened Invariant
  import opened World
  import opened Reachable
  import opened Coalescing
  import Effects
  import Steps
  import RunHistory
  import Builds

  // ---- which repeats are retried ---------------------------------------------------------

  predicate StoredAs(s: State, key: DeliveryKey, e: Id) {
    key in s.deliveries && s.deliveries[key] == e && e in s.events
  }

  /** Run `r` of the connection is PENDING, and unmarked or marked more than fifteen minutes before `at`. */
  predicate WaitsUnsent(s: State, r: Id, conn: Id, at: Time) {
    && r in s.runs && s.runs[r].ref.conn == conn && s.runs[r].status.Pending?
    && (s.runs[r].dispatchedAt.None? || at - s.runs[r].dispatchedAt.value > 900_000_000)
  }

  /** A stored event is tried again when it is delivered again: a REJECTED one, a queued one that FAILED, and a queued one
      whose run is PENDING and was not sent or was sent more than fifteen minutes ago. */
  predicate TriedAgain(s: State, e: Id, conn: Id, at: Time)
    requires e in s.events
  {
    || s.events[e].status.Rejected?
    || (s.events[e].decision.Queued? && s.events[e].status.Failed?)
    || (s.events[e].decision.Queued? && s.events[e].status.Queued? && s.events[e].run.Some?
        && WaitsUnsent(s, s.events[e].run.value, conn, at))
  }

  lemma RetryIs(s: State, a: Arrival, e: Id)
    requires StoredAs(s, a.payload.key, e)
    ensures IsRetry(s, a) <==> TriedAgain(s, e, a.payload.key.conn, a.clock.retry)
  {
  }

  // ---- the row a delivery leaves ---------------------------------------------------------

  /** What processing leaves alone in a row. */
  predicate SameArrival(was: Event, ev: Event) {
    && ev.delivery == was.delivery && ev.targetKey == was.targetKey && ev.head == was.head
    && ev.receivedAt == was.receivedAt && ev.snapshot == was.snapshot
  }

  lemma JoinRow(s: State, a: Arrival, e: Id, r: Id)
    requires e in s.events && r in s.runs
    ensures e in Join(s, a, e, r).state.events && SameArrival(s.events[e], Join(s, a, e, r).state.events[e])
    ensures !Join(s, a, e, r).state.events[e].decision.DuplicateDelivery?
  {
    hide DispatchEvent;
  }

  lemma ParkRow(s: State, a: Arrival, e: Id, ref: Ref)
    requires e in s.events && a.payload.request.Some?
    ensures e in Park(s, a, e, ref).state.events && SameArrival(s.events[e], Park(s, a, e, ref).state.events[e])
    ensures Park(s, a, e, ref).state.events[e].decision.Queued?
  {
  }

  lemma StartRow(s: State, a: Arrival, e: Id, ref: Ref)
    requires e in s.events && a.payload.request.Some?
    ensures e in Start(s, a, e, ref).state.events && SameArrival(s.events[e], Start(s, a, e, ref).state.events[e])
    ensures Start(s, a, e, ref).state.events[e].decision.Queued?
  {
  }

  lemma AttachRow(s: State, a: Arrival, d: Decision, e: Id)
    requires e in s.events
    ensures var p := Attach(s, a, d, e);
      && e in p.state.events && SameArrival(s.events[e], p.state.events[e])
      && (p.state.events[e].decision == s.events[e].decision || !p.state.events[e].decision.DuplicateDelivery?)
  {
    hide Join, Park, Start;
    if a.payload.request.Some? {
      var ref := RequestedRef(a.payload);
      ParkRow(s, a, e, ref);
      StartRow(s, a, e, ref);
      var active := Latest(s.runs, ref, Pending);
      if active.Some? { JoinRow(s, a, e, active.value); }
    }
  }

  /** The row of a delivery that is new: it carries the delivery's own fields and the time it came. */
  lemma NewRow(s: State, a: Arrival)
    requires a.payload.key !in s.deliveries
    ensures var p := Process(s, a);
      && p.event == a.newEvent && StoredAs(p.state, a.payload.key, a.newEvent)
      && var ev := p.state.events[a.newEvent];
      && ev.delivery == a.payload.key && ev.targetKey == a.payload.targetKey && ev.head == a.payload.head
      && ev.receivedAt == a.clock.now && ev.snapshot.None?
  {
    hide Attach, DecisionFor;
    AttachRow(Record(s, a), a, DecisionFor(s, a), a.newEvent);
    AttachIndex(Record(s, a), a, DecisionFor(s, a), a.newEvent);
  }

  lemma AttachIndex(s: State, a: Arrival, d: Decision, e: Id)
    requires e in s.events
    ensures Attach(s, a, d, e).state.deliveries == s.deliveries && Attach(s, a, d, e).event == e
  {
    hide Join, Park, Start;
    if a.payload.request.Some? {
      var ref := RequestedRef(a.payload);
      PlacedIndex(s, a, e, ref);
      var active := Latest(s.runs, ref, Pending);
      if active.Some? { JoinIndex(s, a, e, active.value); }
    }
  }

  lemma PlacedIndex(s: State, a: Arrival, e: Id, ref: Ref)
    requires e in s.events && a.payload.request.Some?
    ensures Park(s, a, e, ref).state.deliveries == s.deliveries && Park(s, a, e, ref).event == e
    ensures Start(s, a, e, ref).state.deliveries == s.deliveries && Start(s, a, e, ref).event == e
  {
  }

  lemma JoinIndex(s: State, a: Arrival, e: Id, r: Id)
    requires e in s.events && r in s.runs
    ensures Join(s, a, e, r).state.deliveries == s.deliveries && Join(s, a, e, r).event == e
  {
    hide DispatchEvent;
  }

  /** The row of one that is tried again: it carries the delivery's fields and the time it came now; */
  lemma RetriedRowIs(s: State, a: Arrival, e: Id)
    requires StoredAs(s, a.payload.key, e) && TriedAgain(s, e, a.payload.key.conn, a.clock.retry)
    ensures var p := Process(s, a);
      && p.event == e && e in p.state.events
      && var ev := p.state.events[e];
      && ev.targetKey == a.payload.targetKey && ev.head == a.payload.head && ev.receivedAt == a.clock.now
      && !ev.decision.DuplicateDelivery?
  {
    hide Attach, DecisionFor, TriedAgain, IsRetry, Retryable;
    RetryIs(s, a, e);
    AttachRow(Record(s, a), a, DecisionFor(s, a), e);
    AttachIndex(Record(s, a), a, DecisionFor(s, a), e);
    NeverRepeated(s, a);
  }

  /** One that is tried again and is no longer worth doing is completed, and unlinked from its run: recorded, or stale if
      its head is not the current one. Nothing else changes and nothing is enqueued. */
  lemma RetriedInVain(s: State, a: Arrival, e: Id, cursorHead: Option<Sha>)
    requires StoredAs(s, a.payload.key, e) && TriedAgain(s, e, a.payload.key.conn, a.clock.retry)
    requires cursorHead == CursorHead(s, a.payload) && !Worthwhile(a.payload, a.seen, cursorHead)
    ensures var p := Process(s, a);
      var recorded :=
        TurnedAway(a.payload, a.seen) || a.payload.head.None? || OnlyRecorded(a.payload, a.seen, cursorHead);
      && p.event == e && p.run.None? && !p.enqueue
      && p.state == s.(events := s.events[e := s.events[e].(
           targetKey := a.payload.targetKey, head := a.payload.head, receivedAt := a.clock.now,
           decision := if recorded then Decision.RecordOnly else StaleHead,
           status := EventStatus.Completed, run := None)])
  {
    hide TriedAgain, IsRetry, OnlyRecorded, TurnedAway, CursorHead;
    RetryIs(s, a, e);
    DecidedExactly(a.payload, a.seen, true, cursorHead, true);
  }

  lemma NeverRepeated(s: State, a: Arrival)
    requires IsRetry(s, a)
    ensures !DecisionFor(s, a).DuplicateDelivery?
  {
    hide IsRetry, Known, CursorHead;
  }

  /** of any other repeat, nothing but decision and status changes anywhere, it is completed as a repeat, or as recorded
      only if its connection turns it away, and nothing is enqueued. */
  lemma RepeatedRow(s: State, a: Arrival, e: Id)
    requires StoredAs(s, a.payload.key, e) && !TriedAgain(s, e, a.payload.key.conn, a.clock.retry)
    ensures var p := Process(s, a);
      && p.event == e && p.run.None? && !p.enqueue
      && p.state == s.(events := s.events[e := s.events[e].(
           decision := if TurnedAway(a.payload, a.seen) then Decision.RecordOnly else DuplicateDelivery,
           status := EventStatus.Completed)])
  {
    hide TriedAgain, IsRetry, Retryable;
    RetryIs(s, a, e);
  }

  /** An event of a failed build, or of a failed send, that is delivered again, worth doing, while its ref has no active
      run, gets a new PENDING run and is enqueued. */
  lemma FailedStartsAgain(s: State, a: Arrival, e: Id, ref: Ref)
    requires Inv(s) && Admissible(s, a) && StoredAs(s, a.payload.key, e)
    requires s.events[e].decision.Queued? && s.events[e].status.Failed?
    requires Worthwhile(a.payload, a.seen, CursorHead(s, a.payload)) && a.payload.request.Some? && IsAbout(a.payload, ref)
    requires forall q :: q in s.runs && s.runs[q].ref == ref ==> !s.runs[q].status.Pending? && !s.runs[q].status.Running?
    ensures var p := Process(s, a);
      && p.run == Some(a.newRun) && p.enqueue && p.dispatchEvent == Some(e) && LinkedTo(p.state, e, a.newRun)
      && p.state.events[e].status.Queued? && p.state.events[e].decision.Queued? && CursorAt(p.state, a, e)
      && p.state.runs == s.runs[a.newRun := Run(ref, a.payload.request.value.origin, Some(e), Pending, a.clock.now,
                                                 None, None, None, None)]
  {
    hide Inv, DecisionFor, Retryable, Worthwhile, IsAbout, RequestedRef, Attach, IsRetry;
    FailedIsRetried(s, a, e);
    WorthQueueing(s, a);
    RequestedIsAbout(a.payload);
    OneRef(a.payload, ref, RequestedRef(a.payload));
    Effects.RecordFrame(s, a);
    WorthHead(s, a);
    StartsAlone(Record(s, a), a, DecisionFor(s, a), e);
  }

  lemma FailedIsRetried(s: State, a: Arrival, e: Id)
    requires StoredAs(s, a.payload.key, e) && s.events[e].decision.Queued? && s.events[e].status.Failed?
    ensures IsRetry(s, a)
  {
  }

  lemma WorthHead(s: State, a: Arrival)
    requires Worthwhile(a.payload, a.seen, CursorHead(s, a.payload))
    ensures a.payload.head.Some?
  {
  }

  lemma OneRef(p: Payload, ref: Ref, ref': Ref)
    requires IsAbout(p, ref) && IsAbout(p, ref')
    ensures ref == ref'
  {
  }

  lemma StartsAlone(s: State, a: Arrival, d: Decision, e: Id)
    requires e in s.events && a.payload.request.Some? && d.Queued? && a.payload.head.Some?
    requires forall q :: q in s.runs && s.runs[q].ref == RequestedRef(a.payload) ==>
      !s.runs[q].status.Pending? && !s.runs[q].status.Running?
    ensures var p := Attach(s, a, d, e);
      && p.run == Some(a.newRun) && p.enqueue && p.dispatchEvent == Some(e) && LinkedTo(p.state, e, a.newRun)
      && p.state.events[e].status.Queued? && p.state.events[e].decision.Queued? && CursorAt(p.state, a, e)
      && p.state.runs == s.runs[a.newRun := Run(RequestedRef(a.payload), a.payload.request.value.origin, Some(e), Pending,
                                                 a.clock.now, None, None, None, None)]
  {
    hide RequestedRef;
  }

  // ---- what is only recorded -------------------------------------------------------------

  /** The head last seen for the delivery's target. */
  predicate HeadSeen(s: State, p: Payload) {
    && CursorKey(p.key.conn, p.targetKey) in s.cursors
    && p.head == Some(s.cursors[CursorKey(p.key.conn, p.targetKey)].head)
  }

  /** Only the new row changes. */
  ghost predicate OnlyRow(s: State, a: Arrival, p: Processed, d: Decision) {
    && p.run.None? && !p.enqueue && p.state.runs == s.runs && p.state.cursors == s.cursors
    && p.state.snapshots == s.snapshots && p.state.scopes == s.scopes
    && p.state.events == s.events[a.newEvent := Event(
         a.payload.key, a.payload.targetKey, a.payload.head, a.clock.now, d, EventStatus.Completed, None, None)]
  }

  /** A new delivery that is only recorded, whose head is the one last seen for its target while no run of its ref is
      PENDING, or whose head is no longer the current one, leaves its completed row and nothing else. */
  lemma OnlyRecords(s: State, a: Arrival, cursorHead: Option<Sha>)
    requires a.payload.key !in s.deliveries && cursorHead == CursorHead(s, a.payload)
    ensures var p, o, s', recorded := a.payload, a.seen, Process(s, a),
        TurnedAway(a.payload, a.seen) || a.payload.head.None? || OnlyRecorded(a.payload, a.seen, cursorHead);
      && (recorded ==> OnlyRow(s, a, s', Decision.RecordOnly))
      && (!recorded && HeadSeen(s, p) && NoneWaits(s, p) ==> OnlyRow(s, a, s', Decision.DuplicateHead))
      && (!recorded && !HeadSeen(s, p) && o.currentHead.Some? && o.currentHead != p.head ==>
            OnlyRow(s, a, s', Decision.StaleHead))
  {
    hide Join, Park, Start, OnlyRecorded, TurnedAway, DecisionFor;
    NewDecision(s, a, cursorHead);
  }

  predicate NoneWaits(s: State, p: Payload) {
    p.request.Some? ==>
      forall q :: q in s.runs && IsAbout(p, s.runs[q].ref) ==> !s.runs[q].status.Pending?
  }

  lemma NewDecision(s: State, a: Arrival, cursorHead: Option<Sha>)
    requires a.payload.key !in s.deliveries && cursorHead == CursorHead(s, a.payload)
    ensures var p, o, d, recorded := a.payload, a.seen, DecisionFor(s, a),
        TurnedAway(a.payload, a.seen) || a.payload.head.None? || OnlyRecorded(a.payload, a.seen, cursorHead);
      && (d.RecordOnly? <==> recorded)
      && (d.DuplicateHead? <==> !recorded && HeadSeen(s, p))
      && (d.StaleHead? <==> !recorded && !HeadSeen(s, p) && o.currentHead.Some? && o.currentHead != p.head)
      && !d.DuplicateDelivery? && (d.Queued? <==> Worthwhile(p, o, cursorHead) && !HeadSeen(s, p))
  {
    hide OnlyRecorded, TurnedAway;
    DecidedExactly(a.payload, a.seen, false, cursorHead, false);
  }

  // ---- what a follow-up sends ------------------------------------------------------------

  /** The follow-up of run `r` has something to look for: the run is done, and its event was not linked elsewhere. */
  predicate Finished(s: State, r: Id, e: Option<Id>) {
    && r in s.runs && (s.runs[r].status.Succeeded? || s.runs[r].status.Failed?)
    && (e.Some? && e.value in s.events ==> s.events[e.value].run == Some(r))
  }

  /** Event `d` triggers run `p` of the ref, links to it, and has the given status. */
  predicate Triggered(s: State, p: Id, ref: Ref, d: Id, status: EventStatus) {
    && p in s.runs && s.runs[p].ref == ref && s.runs[p].trigger == Some(d)
    && d in s.events && s.events[d].run == Some(p) && s.events[d].status == status
  }

  predicate Forwards(t: FollowUpClock) { t.check <= t.release <= t.enqueue <= t.stale }

  lemma NotFinished(s: State, r: Id, e: Option<Id>, t: FollowUpClock)
    requires !Finished(s, r, e)
    ensures FollowUp(s, r, e, t) == (s, None)
  {
  }

  /** The PENDING run that waits is sent, with its marker set, if it is unmarked or was marked more than fifteen minutes
      ago; otherwise nothing is sent and nothing changes. */
  lemma WaitingIsSent(s: State, r: Id, e: Option<Id>, t: FollowUpClock, p: Id, d: Id)
    requires Inv(s) && Finished(s, r, e) && Forwards(t)
    requires Triggered(s, p, s.runs[r].ref, d, EventStatus.Queued) && s.runs[p].status.Pending?
    ensures FollowUp(s, r, e, t) ==
      if s.runs[p].dispatchedAt.None? || t.check - s.runs[p].dispatchedAt.value > 900_000_000
      then (s.(runs := s.runs[p := s.runs[p].(dispatchedAt := Some(t.enqueue))]), Some(p)) else (s, None)
  {
    hide Inv, AnotherActive;
    PendingIs(s, p);
  }

  lemma PendingIs(s: State, p: Id)
    requires Inv(s) && p in s.runs && s.runs[p].status.Pending?
    ensures Latest(s.runs, s.runs[p].ref, Pending) == Some(p)
  {
    OnlyPending(s, p);
  }

  /** With no active run on the ref, the BLOCKED run whose trigger is VALIDATED is released, marked and sent, and its
      trigger is queued. */
  lemma BlockedIsSent(s: State, r: Id, e: Option<Id>, t: FollowUpClock, b: Id, d: Id)
    requires Inv(s) && Finished(s, r, e) && Forwards(t)
    requires Triggered(s, b, s.runs[r].ref, d, EventStatus.Validated) && s.runs[b].status.Blocked?
    requires forall q :: q in s.runs && s.runs[q].ref == s.runs[r].ref ==>
      !s.runs[q].status.Pending? && !s.runs[q].status.Running?
    ensures FollowUp(s, r, e, t) == (
      s.(runs := s.runs[b := s.runs[b].(status := Pending, startedAt := t.release, dispatchedAt := Some(t.enqueue),
                                        completedAt := None, failure := None)],
         events := s.events[d := s.events[d].(decision := Decision.Queued, status := EventStatus.Queued)]), Some(b))
  {
    hide Inv;
    BlockedIs(s, b);
    NoneActive(s, s.runs[r].ref, b);
    assert NextRun(s, r, t) == (UpdateEvent(Release(s, b, t.release), d, Decision.Queued, EventStatus.Queued, Some(b)),
                                Some(b));
    var s1 := UpdateEvent(Release(s, b, t.release), d, Decision.Queued, EventStatus.Queued, Some(b));
    var s2 := Claim(s1, b, t.enqueue, t.stale - RETRY_AFTER);
    assert s2.runs == s.runs[b := s2.runs[b]];
    assert s2.events == s.events[d := s.events[d].(decision := Decision.Queued, status := EventStatus.Queued)];
  }

  lemma NoneActive(s: State, ref: Ref, b: Id)
    requires b in s.runs && s.runs[b].ref == ref
    requires forall q :: q in s.runs && s.runs[q].ref == ref ==>
      !s.runs[q].status.Pending? && !s.runs[q].status.Running?
    ensures !AnotherActive(s, b) && Latest(s.runs, ref, Pending).None? && Latest(s.runs, ref, Running).None?
  {
  }

  lemma BlockedIs(s: State, b: Id)
    requires Inv(s) && b in s.runs && s.runs[b].status.Blocked?
    ensures Earliest(s.runs, s.runs[b].ref, Blocked) == Some(b)
  {
  }

  /** In any world, the follow-up of a finished run puts the message of the waiting PENDING run on its way: the worker's
      next step, if it does not raise, adds it to the queue. */
  lemma WaitingGoesOut(w: World, st: Step, k: Id, p: Id, d: Id)
    requires Sound(w) && Enabled(w, st) && st.Work? && st.worker == k && !st.choice.outcome.Error? && w.queueConfigured
    requires k in w.workers && w.workers[k].phase.FollowingUp?
    requires Finished(w.db, w.workers[k].task.run, TaskEvent(w.workers[k].task))
    requires Triggered(w.db, p, w.db.runs[w.workers[k].task.run].ref, d, EventStatus.Queued)
    requires w.db.runs[p].status.Pending?
    requires w.db.runs[p].dispatchedAt.None?
      || st.choice.clock.check - w.db.runs[p].dispatchedAt.value > 900_000_000
    ensures var w' := Next(w, st);
      && w'.db == w.db.(runs := w.db.runs[p := w.db.runs[p].(dispatchedAt := Some(st.choice.clock.enqueue))])
      && k in w'.workers && w'.workers[k].phase == Sending(p, WebhookTask(d, p))
  {
    hide Sound, Inv, FollowUp, Next, AfterWork, CanWork, TaskFor, PhaseAfter, DbAfter;
    Steps.InvOf(w);
    ForwardWork(w, st);
    FollowUpTurn(w, w.workers[k], st.choice);
    WaitingIsSent(w.db, w.workers[k].task.run, TaskEvent(w.workers[k].task), st.choice.clock, p, d);
    TriggerSends(w.db, p, w.db.runs[w.workers[k].task.run].ref, d);
    Builds.WorkedPhase(w, st, k);
    RunHistory.AfterWorkDb(w, k, st.choice);
    assert Next(w, st).db == AfterWork(w, k, st.choice).db by { StepDb(w, st); }
  }

  lemma FollowUpTurn(w: World, k: Worker, c: Choice)
    requires k.phase.FollowingUp? && !c.outcome.Error? && w.queueConfigured
    ensures var (s', next) := FollowUp(w.db, k.task.run, TaskEvent(k.task), c.clock);
      && DbAfter(w.db, w.queueConfigured, k, c) == s'
      && PhaseAfter(w, k, c) == if next.None? then Done else Sending(next.value, TaskFor(s', next.value))
  {
    hide FollowUp, TaskFor;
  }

  lemma StepDb(w: World, st: Step)
    requires Enabled(w, st) && st.Work?
    ensures Next(w, st).db == AfterWork(w, st.worker, st.choice).db
  {
    hide AfterWork;
  }

  lemma ForwardWork(w: World, st: Step)
    requires Enabled(w, st) && st.Work?
    ensures Forwards(st.choice.clock)
  {
  }

  lemma TriggerSends(s: State, p: Id, ref: Ref, d: Id)
    requires Inv(s) && Triggered(s, p, ref, d, EventStatus.Queued)
    ensures forall marker :: TaskFor(s.(runs := s.runs[p := s.runs[p].(dispatchedAt := marker)]), p) == WebhookTask(d, p)
  {
    hide Inv;
    TriggerOf(s, p);
  }

  /** And a worker that is sending does send. */
  lemma SendsMessage(w: World, st: Step)
    requires Enabled(w, st) && st.Work? && w.workers[st.worker].phase.Sending?
    ensures w.workers[st.worker].phase.message in Next(w, st).tasks && Next(w, st).db == w.db
    ensures st.choice.outcome.Error? ==>
      Next(w, st).workers[st.worker].phase == DispatchFailing(w.workers[st.worker].phase.next)
    ensures !st.choice.outcome.Error? ==> Next(w, st).workers[st.worker].phase == Done
  {
    hide Next, Transacted, Heads, FollowUp;
    Builds.WorkedPhase(w, st, st.worker);
    RunHistory.AfterWorkDb(w, st.worker, st.choice);
    SendTasks(w, st);
  }

  lemma SendTasks(w: World, st: Step)
    requires Enabled(w, st) && st.Work? && w.workers[st.worker].phase.Sending?
    ensures w.workers[st.worker].phase.message in Next(w, st).tasks
    ensures Next(w, st).db == AfterWork(w, st.worker, st.choice).db
  {
    hide Transacted, PhaseAfter;
  }

  // ---- what the routes send --------------------------------------------------------------

  /** A route's claim marks the run and queues its message if the run is PENDING and unmarked, or marked at least fifteen
      minutes ago; otherwise it changes nothing but the clock. */
  lemma ClaimSends(w: World, e: Id, r: Id, at: Time)
    requires Enabled(w, ClaimDispatch(e, r, at))
    ensures var w' := Next(w, ClaimDispatch(e, r, at));
      if r in w.db.runs && w.db.runs[r].status.Pending?
         && (w.db.runs[r].dispatchedAt.None? || at - w.db.runs[r].dispatchedAt.value >= 900_000_000)
      then
        && w'.db == w.db.(runs := w.db.runs[r := w.db.runs[r].(dispatchedAt := Some(at))])
        && w'.tasks == w.tasks + {WebhookTask(e, r)}
      else w' == w.(clock := at)
  {
    hide Links;
  }

  /** A manual request queues its new run's message, unless its ref has a PENDING or RUNNING run: then it changes nothing
      but the clock. */
  lemma ManualSends(w: World, ref: Ref, origin: Origin, r: Id, at: Time)
    requires Enabled(w, RequestManual(ref, origin, r, at))
    ensures var w' := Next(w, RequestManual(ref, origin, r, at));
      if exists q :: q in w.db.runs && w.db.runs[q].ref == ref
                     && (w.db.runs[q].status.Pending? || w.db.runs[q].status.Running?)
      then w' == w.(clock := at)
      else
        && w'.db.runs == w.db.runs[r := Run(ref, origin, None, Pending, at, None, None, None, None)]
        && w'.db.events == w.db.events && w'.tasks == w.tasks + {ManualTask(r)}
  {
    hide Links, Latest, ManualAllowed;
    AllowedIs(w.db, ref);
  }

  lemma AllowedIs(s: State, ref: Ref)
    ensures ManualAllowed(s, ref) <==> forall q :: q in s.runs && s.runs[q].ref == ref ==>
      !s.runs[q].status.Pending? && !s.runs[q].status.Running?
  {
  }
}
