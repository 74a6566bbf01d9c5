/** Runs in which no delivery id repeats: links are permanent and every follow-up can be released. */
module DistinctDeliveries {
  import opened Model
  import opened Deciding
  import opened Transactions
  import opened Invariant
  import opened Effects
  import opened World
  import opened Reachable
  import opened Steps
  import Safety
  import opened RunHistory
  import opened FollowUps

  // ---- links are permanent ---------------------------------------------------------------

  /** Every link there ever was is still the event's link. */
  ghost predicate LinksCurrent(s: State, links: set<(Id, Id)>) {
    forall e, r :: (e, r) in links ==> e in s.events && s.events[e].run == Some(r)
  }

  ghost predicate LinksStay(events: map<Id, Event>, events': map<Id, Event>) {
    forall e :: e in events && events[e].run.Some? ==> e in events' && events'[e].run.Some?
  }

  lemma UpdateStays(s: State, t: State, e: Id, d: Decision, st: EventStatus, run: Option<Id>)
    requires LinksStay(s.events, t.events) && e in t.events
    ensures LinksStay(s.events, UpdateEvent(t, e, d, st, run).events)
  {
  }

  lemma AttachStays(s: State, t: State, a: Arrival, d: Decision, e: Id)
    requires LinksStay(s.events, t.events) && e in t.events
    ensures LinksStay(s.events, Attach(t, a, d, e).state.events)
  {
    hide LinksStay, UpdateEvent, DispatchEvent;
    if a.payload.request.Some? {
      var ref := RequestedRef(a.payload);
      var active := Latest(t.runs, ref, Pending);
      if active.Some? {
        UpdateStays(s, t, e, Decision.Queued, EventStatus.Queued, active);
        UpdateStays(s, t, e, Decision.DuplicateHead, EventStatus.Completed, active);
      } else if Latest(t.runs, ref, Running).Some? {
        ParkStays(s, t, a, e, ref);
      } else {
        UpdateStays(s, CreateRun(t, a.newRun, NewRun(ref, a.payload.request.value.origin, Some(e), Pending, a.clock.now)),
                    e, Decision.Queued, EventStatus.Queued, Some(a.newRun));
      }
    }
  }

  lemma ParkStays(s: State, t: State, a: Arrival, e: Id, ref: Ref)
    requires LinksStay(s.events, t.events) && e in t.events && a.payload.request.Some?
    ensures LinksStay(s.events, Park(t, a, e, ref).state.events)
  {
    hide LinksStay;
    var b := Earliest(t.runs, ref, Blocked);
    if b.Some? && t.runs[b.value].trigger.Some? && t.runs[b.value].trigger.value in t.events {
      UpdateStays(s, t, t.runs[b.value].trigger.value, Decision.DuplicateHead, EventStatus.Completed, b);
    }
    var (t1, q) := BlockedFor(t, a, e, ref);
    UpdateStays(s, t1, e, Decision.Queued, EventStatus.Validated, Some(q));
  }

  lemma ProcessStays(s: State, a: Arrival)
    requires Known(s, a.payload.key).None? && a.newEvent !in s.events
    ensures LinksStay(s.events, Process(s, a).state.events)
  {
    hide LinksStay, Attach, DecisionFor, Known, RecordedRow;
    RecordStays(s, a);
    AttachStays(s, Record(s, a), a, DecisionFor(s, a), EventOf(s, a));
  }

  lemma RecordStays(s: State, a: Arrival)
    requires Known(s, a.payload.key).None? && a.newEvent !in s.events
    ensures LinksStay(s.events, Record(s, a).events) && EventOf(s, a) in Record(s, a).events
  {
    hide RecordedRow;
  }

  lemma RouteStays(w: World, st: Step)
    requires Enabled(w, st) && !st.Deliver? && !st.Work?
    ensures LinksStay(w.db.events, Next(w, st).db.events)
  {
    hide Next, ManualAllowed, Claimable, Cancellable;
    RouteDb(w, st);
  }

  lemma FailWebhookStays(s: State, e: Id, r: Id, now: Time)
    ensures LinksStay(s.events, FailWebhook(s, e, r, now).events)
  {
    hide RestoreCursor, LinksStay;
    var s1 := if r in s.runs && !IsTerminal(s.runs[r].status) then MarkFailed(s, r, SnapshotWriteFailed, now) else s;
    SameEventsStay(s, s1);
    if LinkedTo(s, e, r) {
      RestoreOnlyCursors(UpdateEvent(s1, e, Decision.Queued, EventStatus.Failed, None), e);
      UpdateStays(s, s1, e, Decision.Queued, EventStatus.Failed, None);
    }
  }

  lemma SameEventsStay(s: State, t: State)
    requires t.events == s.events
    ensures LinksStay(s.events, t.events)
  {
  }

  lemma DispatchFailedStays(s: State, p: Id, now: Time)
    ensures LinksStay(s.events, DispatchFailed(s, p, now).events)
  {
    hide RestoreCursor, LinksStay;
    SameEventsStay(s, s);
    var s1 := MarkFailed(s, p, QueueDispatchFailed, now);
    SameEventsStay(s, s1);
    if p in s.runs && s.runs[p].trigger.Some? && s.runs[p].trigger.value in s.events {
      var e := s.runs[p].trigger.value;
      RestoreOnlyCursors(UpdateEvent(s1, e, Decision.Queued, EventStatus.Failed, Some(p)), e);
      UpdateStays(s, s1, e, Decision.Queued, EventStatus.Failed, Some(p));
    }
  }

  lemma FollowUpStays(s: State, r: Id, e: Option<Id>, t: FollowUpClock)
    ensures LinksStay(s.events, FollowUp(s, r, e, t).0.events)
  {
    hide NextRun, LinksStay;
    SameEventsStay(s, s);
    if Relevant(s, r, e) { NextRunStays(s, r, t); }
  }

  lemma NextRunStays(s: State, r: Id, t: FollowUpClock)
    requires r in s.runs
    ensures LinksStay(s.events, NextRun(s, r, t).0.events)
  {
    hide AnotherActive, LinksStay;
    SameEventsStay(s, s);
    var (s1, next) := NextRun(s, r, t);
    if s1 != s {
      UpdateStays(s, Release(s, next.value, t.release), s.runs[next.value].trigger.value, Decision.Queued,
                  EventStatus.Queued, next);
    }
  }

  lemma WorkStays(w: World, k: Worker, c: Choice)
    ensures LinksStay(w.db.events, DbAfter(w.db, w.queueConfigured, k, c).events)
  {
    hide FailWebhook, DispatchFailed, FollowUp, CommitOutcomeOf;
    var r, now := k.task.run, c.clock.check;
    match k.phase
    case Failing => if k.task.WebhookTask? { FailWebhookStays(w.db, k.task.event, r, now); }
    case DispatchFailing(next) => DispatchFailedStays(w.db, next, now);
    case FollowingUp => FollowUpStays(w.db, r, TaskEvent(k.task), c.clock);
    case _ =>
  }

  predicate FreshDelivery(w: World, st: Step) { st.Deliver? ==> st.arrival.payload.key !in w.payloads }

  lemma FreshIsUnknown(w: World, st: Step)
    requires Sound(w) && Enabled(w, st) && FreshDelivery(w, st) && st.Deliver?
    ensures Known(w.db, st.arrival.payload.key).None? && st.arrival.newEvent !in w.db.events
  {
    hide Inv, LinksSound, LinksCover, MessagesSound, AnnouncedSound, BegunSound, BuiltSound, WorkersSound;
    InvOf(w);
    KeysOf(w.db);
    forall e | e in w.db.events ensures w.db.events[e].delivery in w.payloads {
      assert PayloadOf(w.db.events, w.payloads, e);
    }
  }

  lemma NextStays(w: World, st: Step)
    requires Sound(w) && Enabled(w, st) && FreshDelivery(w, st)
    ensures LinksStay(w.db.events, Next(w, st).db.events)
  {
    hide Sound, LinksStay, Process, DbAfter, AfterDelivery, AfterWork, Known;
    if st.Deliver? {
      FreshIsUnknown(w, st);
      ProcessStays(w.db, st.arrival);
      AfterDeliveryDb(w, st.arrival, st.version);
    } else if st.Work? {
      WorkStays(w, w.workers[st.worker], st.choice);
      AfterWorkDb(w, st.worker, st.choice);
    } else {
      RouteStays(w, st);
    }
  }

  lemma AddedCurrent(w: World, st: Step, e: Id, r: Id)
    requires Sound(w) && Enabled(w, st) && FreshDelivery(w, st) && e in w.db.events
    requires (e, r) in AddedBy(w, st)
    ensures (e, r) in w.links
  {
    hide Sound, Inv, Process, CanDeliver, Known, WellShaped, EventOf, Dispatchable;
    if st.Deliver? {
      InvOf(w);
      FreshIsUnknown(w, st);
      DeliveryAdmissible(w, st.arrival, st.version);
      ProcessShape(w.db, st.arrival);
      NewEventIsNew(w, st.arrival);
    } else {
      Safety.DispatchOf(w, e, r);
    }
  }

  lemma CurrentKept(w: World, st: Step)
    requires Sound(w) && Enabled(w, st) && FreshDelivery(w, st) && LinksCurrent(w.db, w.links)
    ensures LinksCurrent(Next(w, st).db, Next(w, st).links)
  {
    hide Sound, Inv, Enabled, Next, Links, LinksStay, AddedBy, MovedBy, Evolves, LinksCover, FreshDelivery;
    var w' := Next(w, st);
    NextHistory(w, st);
    NextStays(w, st);
    NextEvolves(w, st);
    Safety.CoverOf(w);
    forall e, r | (e, r) in w'.links ensures LinkedTo(w'.db, e, r) {
      if (e, r) in w.links {
        StaysLinked(w.db.events, w'.db.events, e);
        var q := w'.db.events[e].run.value;
        LinkOrigin(w.db, w'.db, w.payloads, w.links, AddedBy(w, st), MovedBy(w, st), e, q);
        if (e, q) !in w.links { AddedCurrent(w, st, e, q); }
      } else {
        LinkStoredNow(w'.db, e, r);
      }
    }
  }

  lemma StaysLinked(events: map<Id, Event>, events': map<Id, Event>, e: Id)
    requires LinksStay(events, events') && e in events && events[e].run.Some?
    ensures e in events' && events'[e].run.Some?
  {
  }

  // ---- every follow-up can be released ---------------------------------------------------

  /** While links are permanent and the follow-ups are ready, only a repeated delivery could strand one. */
  lemma FreshStrandsNone(w: World, st: Step)
    requires Sound(w) && Enabled(w, st) && FreshDelivery(w, st) && LinksCurrent(w.db, w.links)
    ensures !Strands(w, st)
  {
    hide Sound, Inv, CanDeliver, Known, TriggersBlocked, Dispatchable;
    if st.Deliver? {
      FreshIsUnknown(w, st);
    } else if st.EnqueueFailure? {
      DispatchEvents(w, st.event, st.run);
      Safety.DispatchOf(w, st.event, st.run);
      if st.run in w.db.runs { OtherTriggersNone(w, st.event, st.run); }
    } else if st.Work? {
      var phase := w.workers[st.worker].phase;
      if phase.DispatchFailing? && phase.next in w.db.runs && w.db.runs[phase.next].trigger.Some? {
        WorkerDispatched(w, st.worker);
        TriggerLinked(w, phase.next);
        OtherTriggersNone(w, w.db.runs[phase.next].trigger.value, phase.next);
      }
    }
  }

  lemma TriggerLinked(w: World, r: Id)
    requires Sound(w) && r in w.db.runs && w.db.runs[r].trigger.Some?
    ensures (w.db.runs[r].trigger.value, r) in w.links
  {
    hide Inv, LinksSound, MessagesSound, AnnouncedSound, BegunSound, BuiltSound, WorkersSound, PayloadsSound;
  }

  lemma OtherTriggersNone(w: World, e: Id, r: Id)
    requires Sound(w) && LinksCurrent(w.db, w.links) && (e, r) in w.links
    requires r in w.db.runs && !w.db.runs[r].status.Blocked?
    ensures !TriggersBlocked(w.db, e)
  {
    hide Sound;
    forall b | b in w.db.runs && w.db.runs[b].status.Blocked? && w.db.runs[b].trigger == Some(e) ensures false {
      TriggerLinked(w, b);
    }
  }

  /** No two deliveries of the run carry the same id. */
  predicate DistinctIds(steps: seq<Step>) {
    forall i, j :: 0 <= i < j < |steps| && steps[i].Deliver? && steps[j].Deliver? ==>
      steps[i].arrival.payload.key != steps[j].arrival.payload.key
  }

  lemma NextPayloads(w: World, st: Step, key: DeliveryKey)
    requires Enabled(w, st) && key in Next(w, st).payloads && key !in w.payloads
    ensures st.Deliver? && st.arrival.payload.key == key
  {
    hide AfterDelivery, AfterWork, Links, CanDeliver, KeepsHistory;
    if st.Deliver? {
      DeliveryHistory(w, st.arrival, st.version);
    } else if st.Work? {
      WorkHistory(w, st.worker, st.choice);
    } else {
      RoutePayloads(w, st);
    }
  }

  lemma RoutePayloads(w: World, st: Step)
    requires Enabled(w, st) && !st.Deliver? && !st.Work?
    ensures Next(w, st).payloads == w.payloads
  {
    hide Next, Enabled, Links;
    if st.ClaimDispatch? || st.EnqueueFailure? || st.Refuse? {
      QueueHistory(w, st);
    } else if st.Push? || st.Take? {
      IdleHistory(w, st);
    } else {
      ManualHistory(w, st);
    }
  }

  lemma {:induction false} PayloadDelivered(ws: seq<World>, steps: seq<Step>, i: nat, key: DeliveryKey)
    requires Execution(ws, steps) && i < |ws| && key in ws[i].payloads
    ensures exists m :: 0 <= m < i && steps[m].Deliver? && steps[m].arrival.payload.key == key
  {
    hide Enabled, Next;
    assert i > 0;
    if key in ws[i - 1].payloads {
      PayloadDelivered(ws, steps, i - 1, key);
    } else {
      NextPayloads(ws[i - 1], steps[i - 1], key);
    }
  }

  lemma DistinctIsFresh(ws: seq<World>, steps: seq<Step>, i: nat)
    requires Execution(ws, steps) && DistinctIds(steps) && i < |steps|
    ensures FreshDelivery(ws[i], steps[i])
  {
    hide Enabled, Next;
    if steps[i].Deliver? && steps[i].arrival.payload.key in ws[i].payloads {
      PayloadDelivered(ws, steps, i, steps[i].arrival.payload.key);
    }
  }

  /** With distinct delivery ids, in every reachable world each BLOCKED run's trigger event is VALIDATED and
      links back to it, and no link is ever replaced or cleared. */
  lemma {:induction false} AlwaysReady(ws: seq<World>, steps: seq<Step>, i: nat)
    requires Execution(ws, steps) && DistinctIds(steps) && i < |ws|
    ensures FollowUpsReady(ws[i].db) && LinksCurrent(ws[i].db, ws[i].links)
  {
    hide Sound, Enabled, Next, FollowUpsReady, LinksCurrent, FreshDelivery, Strands, DistinctIds;
    if i == 0 {
      InitiallyReady(ws[0]);
    } else {
      AlwaysReady(ws, steps, i - 1);
      Safety.AlwaysSound(ws, steps, i - 1);
      DistinctIsFresh(ws, steps, i - 1);
      CurrentKept(ws[i - 1], steps[i - 1]);
      FreshStrandsNone(ws[i - 1], steps[i - 1]);
      StrandsExactly(ws[i - 1], steps[i - 1]);
    }
  }

  lemma InitiallyReady(w: World)
    requires Initial(w)
    ensures FollowUpsReady(w.db) && LinksCurrent(w.db, w.links)
  {
  }
}
