/** Concrete runs of the protocol, built one step at a time from the empty database. */
module Trails {
  import opened Model
  import opened Deciding
  import opened Transactions
  import opened World
  import DistinctDeliveries

  // ---- what these runs look at -----------------------------------------------------------

  /** The part of a world that decides which steps are enabled and what they do to the tables. */
  datatype Seen = Seen(
    db: State, workers: map<Id, Worker>, tasks: set<Task>, payloads: map<DeliveryKey, Payload>,
    dispatches: set<(Id, Id)>, manual: set<Id>)

  ghost predicate Shows(w: World, seen: Seen, queue: bool) {
    && w.db == seen.db && w.workers == seen.workers && w.tasks == seen.tasks && w.payloads == seen.payloads
    && w.dispatches == seen.dispatches && w.manual == seen.manual && w.clock == 0 && w.queueConfigured == queue
  }

  /** A run with distinct delivery ids that ends in what is seen. */
  ghost predicate Trail(ws: seq<World>, steps: seq<Step>, seen: Seen, queue: bool) {
    && Execution(ws, steps) && DistinctDeliveries.DistinctIds(steps) && Shows(ws[|steps|], seen, queue)
    && forall i :: 0 <= i < |steps| && steps[i].Deliver? ==> steps[i].arrival.payload.key in seen.payloads
  }

  lemma Grown(ws: seq<World>, steps: seq<Step>, st: Step)
    requires Execution(ws, steps) && Enabled(ws[|steps|], st)
    ensures Execution(ws + [Next(ws[|steps|], st)], steps + [st])
  {
    hide Enabled, Next, Initial;
    var ws', steps' := ws + [Next(ws[|steps|], st)], steps + [st];
    forall i | 0 <= i < |steps'| ensures Enabled(ws'[i], steps'[i]) && ws'[i + 1] == Next(ws'[i], steps'[i]) {
      if i < |steps| { assert ws'[i] == ws[i] && ws'[i + 1] == ws[i + 1] && steps'[i] == steps[i]; }
    }
  }

  lemma Then(ws: seq<World>, steps: seq<Step>, seen: Seen, queue: bool, st: Step, seen': Seen)
    requires Trail(ws, steps, seen, queue) && Enabled(ws[|steps|], st)
    requires Shows(Next(ws[|steps|], st), seen', queue) && seen.payloads.Keys <= seen'.payloads.Keys
    requires st.Deliver? ==> st.arrival.payload.key in seen'.payloads && st.arrival.payload.key !in seen.payloads
    ensures Trail(ws + [Next(ws[|steps|], st)], steps + [st], seen', queue)
  {
    hide Enabled, Next, Execution, Shows;
    assert |ws| == |steps| + 1 by { Lengths(ws, steps); }
    Grown(ws, steps, st);
    var steps' := steps + [st];
    forall i, j | 0 <= i < j < |steps'| && steps'[i].Deliver? && steps'[j].Deliver?
      ensures steps'[i].arrival.payload.key != steps'[j].arrival.payload.key
    {
      assert steps'[i] == steps[i];
      if j < |steps| { assert steps'[j] == steps[j]; }
    }
  }

  lemma Lengths(ws: seq<World>, steps: seq<Step>)
    requires Execution(ws, steps)
    ensures |ws| == |steps| + 1
  {
  }

  // ---- what one step shows ---------------------------------------------------------------

  /** A push of `head` to the default branch, delivered as `id`. */
  function Delivery(id: string, head: Sha, e: Id, r: Id): Arrival {
    Arrival(
      Payload(Key(id), GitHub, EventType.Push, None, "default_ref", Some(head),
        Some(Request(Branch, Some("main"), WebhookPush)), true),
      Observation(true, Some(head), true, false), e, r, Clock(0, 0, 0))
  }

  function Key(id: string): DeliveryKey { DeliveryKey(0, DeliveryHeader, id) }

  const MAIN := Ref(0, Branch, "main")
  const CURSOR := CursorKey(0, "default_ref")
  const IDLE := Choice(FollowUpClock(0, 0, 0, 0), 9, SnapshotWriteFailed, Outcome.Ok)
  const RAISES := IDLE.(outcome := Error(SnapshotWriteFailed))

  lemma DeliverShows(w: World, seen: Seen, queue: bool, a: Arrival)
    requires Shows(w, seen, queue) && a.clock == Clock(0, 0, 0)
    requires a.newEvent !in seen.db.issued && a.newRun !in seen.db.issued && a.newEvent != a.newRun
    requires a.payload.request.Some? && !IsManual(a.payload.request.value.origin)
    requires a.payload.key in seen.payloads ==> seen.payloads[a.payload.key] == a.payload
    ensures Enabled(w, Deliver(a, None))
    ensures var p := Process(seen.db, a);
      Shows(Next(w, Deliver(a, None)),
            seen.(db := p.state, payloads := seen.payloads[a.payload.key := a.payload],
                  dispatches := if p.enqueue && p.dispatchEvent.Some? && p.run.Some?
                                then seen.dispatches + {(p.dispatchEvent.value, p.run.value)} else seen.dispatches),
            queue)
  {
    hide Process, Links, Known;
    assert Announced(w, a, None) == Delivered(w, a);
  }

  lemma ClaimShows(w: World, seen: Seen, queue: bool, e: Id, r: Id)
    requires Shows(w, seen, queue) && (e, r) in seen.dispatches && Claimable(seen.db, r, -RETRY_AFTER)
    ensures Enabled(w, ClaimDispatch(e, r, 0))
    ensures Shows(Next(w, ClaimDispatch(e, r, 0)),
                  seen.(db := Claim(seen.db, r, 0, -RETRY_AFTER), tasks := seen.tasks + {WebhookTask(e, r)}), queue)
  {
    hide Claim, Claimable, Links;
    assert 0 - RETRY_AFTER == -RETRY_AFTER;
  }

  lemma FailedSendShows(w: World, seen: Seen, queue: bool, e: Id, r: Id)
    requires Shows(w, seen, queue) && (e, r) in seen.dispatches
    ensures Enabled(w, EnqueueFailure(e, r, 0))
    ensures Shows(Next(w, EnqueueFailure(e, r, 0)), seen.(db := EnqueueFailed(seen.db, e, r)), queue)
  {
    hide EnqueueFailed, Links;
  }

  lemma TakeShows(w: World, seen: Seen, queue: bool, k: Id, task: Task)
    requires Shows(w, seen, queue) && k !in seen.workers && task in seen.tasks
    ensures Enabled(w, Take(k, task))
    ensures Shows(Next(w, Take(k, task)), seen.(workers := seen.workers[k := Worker(task, Phase.Received)]), queue)
  {
  }

  lemma WorkShows(w: World, seen: Seen, queue: bool, k: Id, c: Choice, phase: Phase)
    requires Shows(w, seen, queue) && k in seen.workers && !seen.workers[k].phase.Done? && c.newId !in seen.db.issued
    requires c.clock == FollowUpClock(0, 0, 0, 0) && PhaseAfter(w, seen.workers[k], c) == phase
    ensures Enabled(w, Work(k, c))
    ensures Shows(Next(w, Work(k, c)),
                  seen.(db := DbAfter(seen.db, queue, seen.workers[k], c),
                        workers := seen.workers[k := seen.workers[k].(phase := phase)],
                        tasks := if seen.workers[k].phase.Sending? then seen.tasks + {seen.workers[k].phase.message}
                                 else seen.tasks), queue)
  {
    hide PhaseAfter, DbAfter, Transacted;
    WorkedPhaseShows(w, seen, queue, k, c);
  }

  lemma WorkedPhaseShows(w: World, seen: Seen, queue: bool, k: Id, c: Choice)
    requires Shows(w, seen, queue) && k in seen.workers && c.clock == FollowUpClock(0, 0, 0, 0)
    ensures Shows(Transacted(w, k, c), seen.(db := DbAfter(seen.db, queue, seen.workers[k], c)), queue)
  {
    hide DbAfter, Links, CommitOutcomeOf, Startable, Heads;
  }

  lemma ManualShows(w: World, seen: Seen, queue: bool, r: Id)
    requires Shows(w, seen, queue) && r !in seen.db.issued && ManualAllowed(seen.db, MAIN)
    ensures Enabled(w, RequestManual(MAIN, ManualRefresh, r, 0))
    ensures Shows(Next(w, RequestManual(MAIN, ManualRefresh, r, 0)),
                  seen.(db := CreateManual(seen.db, MAIN, ManualRefresh, r, 0), tasks := seen.tasks + {ManualTask(r)},
                        manual := seen.manual + {r}), queue)
  {
    hide CreateManual, ManualAllowed, Links;
  }

  lemma WithdrawShows(w: World, seen: Seen, queue: bool, r: Id)
    requires Shows(w, seen, queue) && r in seen.manual
    ensures Enabled(w, WithdrawManual(r))
    ensures Shows(Next(w, WithdrawManual(r)), seen.(db := CancelManual(seen.db, r)), queue)
  {
    hide CancelManual, Links;
  }

  // ---- what storing a new push does ------------------------------------------------------

  function Pushed(id: string, head: Sha, status: EventStatus, run: Id): Event {
    Event(Key(id), "default_ref", Some(head), 0, Decision.Queued, status, Some(run), None)
  }

  /** The tables after push `id` is stored as event `e` with its run `r`, the run new. */
  function Stored(s: State, id: string, head: Sha, e: Id, r: Id, run: RunStatus): State {
    var status := if run.Blocked? then EventStatus.Validated else EventStatus.Queued;
    s.(events := s.events[e := Pushed(id, head, status, r)], deliveries := s.deliveries[Key(id) := e],
       runs := s.runs[r := NewRun(MAIN, WebhookPush, Some(e), run, 0)], cursors := s.cursors[CURSOR := Cursor(head, e)],
       issued := s.issued + {e, r})
  }

  predicate NewPush(s: State, id: string, head: Sha) {
    Key(id) !in s.deliveries && (CURSOR in s.cursors ==> s.cursors[CURSOR].head != head)
  }

  lemma NewPushQueued(s: State, id: string, head: Sha, e: Id, r: Id)
    requires NewPush(s, id, head)
    ensures var a := Delivery(id, head, e, r);
      && DecisionFor(s, a).Queued? && EventOf(s, a) == e && RequestedRef(a.payload) == MAIN
      && Record(s, a) == s.(events := s.events[e := Event(Key(id), "default_ref", Some(head), 0, Decision.Queued,
                                                           EventStatus.Queued, None, None)],
                            deliveries := s.deliveries[Key(id) := e], issued := s.issued + {e})
  {
  }

  lemma NewPushStarts(s: State, id: string, head: Sha, e: Id, r: Id)
    requires NewPush(s, id, head) && ManualAllowed(s, MAIN)
    ensures Process(s, Delivery(id, head, e, r))
      == Processed(Stored(s, id, head, e, r, Pending), e, Some(r), true, Some(e))
  {
    hide DecisionFor, Record, EventOf, RequestedRef;
    NewPushQueued(s, id, head, e, r);
    var a := Delivery(id, head, e, r);
    var s1 := Record(s, a);
    var p := Start(s1, a, e, MAIN);
    assert p.state.events == s.events[e := Pushed(id, head, EventStatus.Queued, r)];
    assert p.state.issued == s.issued + {e, r};
    assert p.state == Stored(s, id, head, e, r, Pending);
  }

  lemma NewPushParks(s: State, id: string, head: Sha, e: Id, r: Id)
    requires NewPush(s, id, head)
    requires Latest(s.runs, MAIN, Pending).None? && Latest(s.runs, MAIN, Running).Some?
    requires Earliest(s.runs, MAIN, Blocked).None?
    ensures Process(s, Delivery(id, head, e, r)) == Processed(Stored(s, id, head, e, r, Blocked), e, Some(r), false, None)
  {
    hide DecisionFor, Record, EventOf, RequestedRef;
    NewPushQueued(s, id, head, e, r);
    var a := Delivery(id, head, e, r);
    var s1 := Record(s, a);
    var p := Park(s1, a, e, MAIN);
    assert p.state.events == s.events[e := Pushed(id, head, EventStatus.Validated, r)];
    assert p.state.issued == s.issued + {e, r};
    assert p.state == Stored(s, id, head, e, r, Blocked);
  }

  // ---- trails, one step longer -----------------------------------------------------------

  lemma LastShows(ws: seq<World>, steps: seq<Step>, seen: Seen, queue: bool)
    requires Trail(ws, steps, seen, queue)
    ensures |ws| == |steps| + 1 && Shows(ws[|steps|], seen, queue)
  {
  }

  lemma PushThen(ws: seq<World>, steps: seq<Step>, seen: Seen, queue: bool, id: string, head: Sha, e: Id, r: Id)
    returns (ws': seq<World>, steps': seq<Step>, seen': Seen)
    requires Trail(ws, steps, seen, queue) && NewPush(seen.db, id, head) && Key(id) !in seen.payloads
    requires e !in seen.db.issued && r !in seen.db.issued && e != r
    requires ManualAllowed(seen.db, MAIN)
      || (Latest(seen.db.runs, MAIN, Pending).None? && Latest(seen.db.runs, MAIN, Running).Some?
          && Earliest(seen.db.runs, MAIN, Blocked).None?)
    ensures Trail(ws', steps', seen', queue) && |ws'| == |ws| + 1 && ws'[..|ws|] == ws && |steps'| == |steps| + 1
    ensures var starts := ManualAllowed(seen.db, MAIN);
      seen' == seen.(db := Stored(seen.db, id, head, e, r, if starts then Pending else Blocked),
                     payloads := seen.payloads[Key(id) := Delivery(id, head, e, r).payload],
                     dispatches := if starts then seen.dispatches + {(e, r)} else seen.dispatches)
  {
    hide Trail, Enabled, Next, Process, Stored, Shows, NewPush;
    LastShows(ws, steps, seen, queue);
    var w, a := ws[|steps|], Delivery(id, head, e, r);
    DeliverShows(w, seen, queue, a);
    if ManualAllowed(seen.db, MAIN) {
      NewPushStarts(seen.db, id, head, e, r);
    } else {
      NewPushParks(seen.db, id, head, e, r);
    }
    var p := Process(seen.db, a);
    seen' := seen.(db := p.state, payloads := seen.payloads[a.payload.key := a.payload],
                   dispatches := if p.enqueue && p.dispatchEvent.Some? && p.run.Some?
                                 then seen.dispatches + {(p.dispatchEvent.value, p.run.value)} else seen.dispatches);
    ws', steps' := ws + [Next(w, Deliver(a, None))], steps + [Deliver(a, None)];
    Then(ws, steps, seen, queue, Deliver(a, None), seen');
  }

  lemma WorkThen(ws: seq<World>, steps: seq<Step>, seen: Seen, queue: bool, k: Id, c: Choice, phase: Phase)
    returns (ws': seq<World>, steps': seq<Step>, seen': Seen)
    requires Trail(ws, steps, seen, queue) && k in seen.workers && !seen.workers[k].phase.Done?
    requires c.newId !in seen.db.issued && c.clock == FollowUpClock(0, 0, 0, 0)
    requires |ws| == |steps| + 1 && PhaseAfter(ws[|steps|], seen.workers[k], c) == phase
    ensures Trail(ws', steps', seen', queue) && |ws'| == |ws| + 1 && ws'[..|ws|] == ws && steps' == steps + [Work(k, c)]
    ensures seen' == seen.(db := DbAfter(seen.db, queue, seen.workers[k], c),
                           workers := seen.workers[k := seen.workers[k].(phase := phase)],
                           tasks := if seen.workers[k].phase.Sending? then seen.tasks + {seen.workers[k].phase.message}
                                    else seen.tasks)
  {
    hide Trail, Enabled, Next, DbAfter, PhaseAfter, Shows;
    LastShows(ws, steps, seen, queue);
    WorkShows(ws[|steps|], seen, queue, k, c, phase);
    seen' := seen.(db := DbAfter(seen.db, queue, seen.workers[k], c),
                   workers := seen.workers[k := seen.workers[k].(phase := phase)],
                   tasks := if seen.workers[k].phase.Sending? then seen.tasks + {seen.workers[k].phase.message}
                            else seen.tasks);
    ws', steps' := ws + [Next(ws[|steps|], Work(k, c))], steps + [Work(k, c)];
    Then(ws, steps, seen, queue, Work(k, c), seen');
  }

  lemma OtherThen(ws: seq<World>, steps: seq<Step>, seen: Seen, queue: bool, st: Step, seen': Seen)
    returns (ws': seq<World>, steps': seq<Step>)
    requires Trail(ws, steps, seen, queue) && seen'.payloads == seen.payloads && !st.Deliver?
    requires |ws| == |steps| + 1 && Enabled(ws[|steps|], st) && Shows(Next(ws[|steps|], st), seen', queue)
    ensures Trail(ws', steps', seen', queue) && |ws'| == |ws| + 1 && ws'[..|ws|] == ws && steps' == steps + [st]
  {
    hide Trail, Enabled, Next, Shows;
    ws', steps' := ws + [Next(ws[|steps|], st)], steps + [st];
    Then(ws, steps, seen, queue, st, seen');
  }

  lemma ClaimThen(ws: seq<World>, steps: seq<Step>, seen: Seen, queue: bool, e: Id, r: Id)
    returns (ws': seq<World>, steps': seq<Step>, seen': Seen)
    requires Trail(ws, steps, seen, queue) && (e, r) in seen.dispatches && Claimable(seen.db, r, -RETRY_AFTER)
    ensures Trail(ws', steps', seen', queue) && |steps'| == |steps| + 1
    ensures seen' == seen.(db := Claim(seen.db, r, 0, -RETRY_AFTER), tasks := seen.tasks + {WebhookTask(e, r)})
  {
    hide Trail, Enabled, Next, Shows, Claim, Claimable;
    LastShows(ws, steps, seen, queue);
    ClaimShows(ws[|steps|], seen, queue, e, r);
    seen' := seen.(db := Claim(seen.db, r, 0, -RETRY_AFTER), tasks := seen.tasks + {WebhookTask(e, r)});
    ws', steps' := OtherThen(ws, steps, seen, queue, ClaimDispatch(e, r, 0), seen');
  }

  lemma TakeThen(ws: seq<World>, steps: seq<Step>, seen: Seen, queue: bool, k: Id, task: Task)
    returns (ws': seq<World>, steps': seq<Step>, seen': Seen)
    requires Trail(ws, steps, seen, queue) && k !in seen.workers && task in seen.tasks
    ensures Trail(ws', steps', seen', queue) && |steps'| == |steps| + 1
    ensures seen' == seen.(workers := seen.workers[k := Worker(task, Phase.Received)])
  {
    hide Trail, Enabled, Next, Shows;
    LastShows(ws, steps, seen, queue);
    TakeShows(ws[|steps|], seen, queue, k, task);
    seen' := seen.(workers := seen.workers[k := Worker(task, Phase.Received)]);
    ws', steps' := OtherThen(ws, steps, seen, queue, Take(k, task), seen');
  }

  lemma LastDb(ws: seq<World>, steps: seq<Step>, seen: Seen, queue: bool)
    requires Trail(ws, steps, seen, queue)
    ensures |ws| == |steps| + 1 && ws[|steps|].db == seen.db && ws[|steps|].queueConfigured == queue
    ensures ws[|steps|].workers == seen.workers
  {
  }

  lemma Trailing(ws: seq<World>, steps: seq<Step>, seen: Seen, queue: bool)
    requires Trail(ws, steps, seen, queue)
    ensures Execution(ws, steps) && DistinctDeliveries.DistinctIds(steps)
  {
  }

  lemma ShownDb(w: World, seen: Seen)
    requires Shows(w, seen, true)
    ensures w.db == seen.db && w.tasks == seen.tasks
  {
  }
}
