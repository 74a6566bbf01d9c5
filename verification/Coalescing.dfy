/** Sequences of deliveries: bursts behind a RUNNING run, and repeats of one delivery. */
module Coalescing {
  import opened Model
  import opened Deciding
  import opened Transactions
  import opened Invariant
  import Effects
  import opened World
  import opened Reachable
  import Steps

  /** The deliveries handled one after another. */
  ghost function ProcessAll(s: State, deliveries: seq<Arrival>): State {
    if |deliveries| == 0 then s
    else Process(ProcessAll(s, deliveries[..|deliveries| - 1]), deliveries[|deliveries| - 1]).state
  }

  // ---- a burst behind a RUNNING run ------------------------------------------------------

  /** A delivery never seen before, with new ids, that is queued and asks for a sync of `ref`. */
  ghost predicate FreshQueued(s: State, a: Arrival, ref: Ref) {
    && Admissible(s, a) && Known(s, a.payload.key).None? && DecisionFor(s, a).Queued?
    && a.payload.request.Some? && RequestedRef(a.payload) == ref
  }

  ghost predicate Burst(s: State, deliveries: seq<Arrival>, ref: Ref) {
    forall i :: 0 <= i < |deliveries| ==> FreshQueued(ProcessAll(s, deliveries[..i]), deliveries[i], ref)
  }

  predicate Parked(s: State, e: Id, b: Id) {
    && b in s.runs && s.runs[b].status.Blocked? && s.runs[b].trigger == Some(e)
    && e in s.events && s.events[e].decision.Queued? && s.events[e].status.Validated? && s.events[e].run == Some(b)
  }

  predicate Superseded(s: State, e: Id, b: Id) {
    e in s.events && s.events[e].decision.DuplicateHead? && s.events[e].status.Completed? && s.events[e].run == Some(b)
  }

  ghost predicate CursorAt(s: State, a: Arrival, e: Id) {
    var key := CursorKey(a.payload.key.conn, a.payload.targetKey);
    key in s.cursors && a.payload.head == Some(s.cursors[key].head) && s.cursors[key].event == e
  }

  ghost predicate OnlyBlocked(s: State, ref: Ref, b: Id) {
    forall q :: q in s.runs && s.runs[q].ref == ref && s.runs[q].status.Blocked? ==> q == b
  }

  lemma NoPending(s: State, ref: Ref, r: Id)
    requires Inv(s) && r in s.runs && s.runs[r].ref == ref && s.runs[r].status.Running?
    ensures Latest(s.runs, ref, Pending).None? && Latest(s.runs, ref, Running).Some?
  {
  }

  lemma OnlyOneBlocked(s: State, ref: Ref, b: Id)
    requires Inv(s) && b in s.runs && s.runs[b].ref == ref && s.runs[b].status.Blocked?
    ensures OnlyBlocked(s, ref, b)
  {
  }

  /** The trigger a follow-up had is superseded, and no other event changes. */
  ghost predicate Replaces(s: State, s1: State, ref: Ref, b: Id) {
    forall t, q :: q in s.runs && s.runs[q].ref == ref && Parked(s, t, q) ==>
      && q == b && Superseded(s1, t, b)
      && forall d :: d in s.events && d != t ==> d in s1.events && s1.events[d] == s.events[d]
  }

  lemma BlockedForEffect(s: State, a: Arrival, e: Id, ref: Ref)
    requires Inv(s) && e in s.events && a.payload.request.Some? && a.newRun !in s.runs
    requires forall b :: b in s.runs ==> s.runs[b].trigger != Some(e)
    ensures var (s1, b) := BlockedFor(s, a, e, ref);
      && e in s1.events && s1.events[e] == s.events[e]
      && b in s1.runs && s1.runs[b].status.Blocked? && s1.runs[b].trigger == Some(e) && s1.runs[b].ref == ref
      && Replaces(s, s1, ref, b)
  {
    hide Inv, BlockedFor;
    var b := Earliest(s.runs, ref, Blocked);
    BlockedForNew(s, a, e, ref);
    forall t, q | q in s.runs && s.runs[q].ref == ref && Parked(s, t, q) ensures b == Some(q) {
      OnlyOneBlocked(s, ref, q);
    }
    if b.Some? { BlockedForOld(s, a, e, ref, b.value); }
  }

  lemma BlockedForNew(s: State, a: Arrival, e: Id, ref: Ref)
    requires e in s.events && a.payload.request.Some? && forall b :: b in s.runs ==> s.runs[b].trigger != Some(e)
    ensures var (s1, b) := BlockedFor(s, a, e, ref);
      && e in s1.events && s1.events[e] == s.events[e]
      && b in s1.runs && s1.runs[b].status.Blocked? && s1.runs[b].trigger == Some(e) && s1.runs[b].ref == ref
  {
  }

  lemma BlockedForOld(s: State, a: Arrival, e: Id, ref: Ref, q: Id)
    requires a.payload.request.Some? && Earliest(s.runs, ref, Blocked) == Some(q) && s.runs[q].trigger != Some(e)
    ensures var (s1, b) := BlockedFor(s, a, e, ref);
      && b == q
      && forall t :: Parked(s, t, q) ==>
           Superseded(s1, t, b) && forall d :: d in s.events && d != t ==> d in s1.events && s1.events[d] == s.events[d]
  {
  }

  lemma OnlyBlockedTouched(s: State, a: Arrival, e: Id, ref: Ref)
    requires a.payload.request.Some? && a.newRun !in s.runs
    ensures var s1 := BlockedFor(s, a, e, ref).0;
      forall q :: q in s.runs && !s.runs[q].status.Blocked? ==> q in s1.runs && s1.runs[q] == s.runs[q]
  {
  }

  /** Parking a fresh delivery makes it the trigger of the ref's follow-up, in place of the one before. */
  lemma ParkEffect(s: State, a: Arrival, e: Id, ref: Ref)
    requires Inv(s) && RowOf(s, a, e) && a.payload.request.Some? && a.payload.head.Some? && a.newRun !in s.runs
    requires forall b :: b in s.runs ==> s.runs[b].trigger != Some(e)
    ensures var p := Park(s, a, e, ref);
      && p.run.Some? && !p.enqueue && Parked(p.state, e, p.run.value) && p.state.runs[p.run.value].ref == ref
      && CursorAt(p.state, a, e)
      && (forall q :: q in s.runs && !s.runs[q].status.Blocked? ==> q in p.state.runs && p.state.runs[q] == s.runs[q])
    ensures forall t, q, d :: q in s.runs && s.runs[q].ref == ref && Parked(s, t, q) && t != e ==>
      var p := Park(s, a, e, ref);
      && p.run == Some(q) && Superseded(p.state, t, q)
      && (d != e && d != t && d in s.events ==> d in p.state.events && p.state.events[d] == s.events[d])
  {
    hide Inv, BlockedFor;
    BlockedForEffect(s, a, e, ref);
    OnlyBlockedTouched(s, a, e, ref);
  }

  lemma NewTriggersNone(s: State, e: Id)
    requires Inv(s) && e !in s.issued
    ensures forall b :: b in s.runs ==> s.runs[b].trigger != Some(e)
  {
    hide Inv;
    KeysOf(s);
    forall b | b in s.runs ensures s.runs[b].trigger != Some(e) { TriggerOf(s, b); }
  }

  lemma RecordNew(s: State, a: Arrival)
    requires Known(s, a.payload.key).None?
    ensures EventOf(s, a) == a.newEvent && Record(s, a).events == s.events[a.newEvent := Record(s, a).events[a.newEvent]]
  {
    hide RecordedRow;
  }

  lemma ParksFresh(s: State, a: Arrival, ref: Ref, r: Id)
    requires Inv(s) && FreshQueued(s, a, ref)
    requires r in s.runs && s.runs[r].ref == ref && s.runs[r].status.Running?
    ensures Inv(Process(s, a).state) && a.payload.head.Some? && Inv(Record(s, a)) && Record(s, a).runs == s.runs
    ensures RowOf(Record(s, a), a, a.newEvent) && a.newEvent !in s.events
    ensures Process(s, a) == Park(Record(s, a), a, a.newEvent, ref)
  {
    hide Inv, Record, Park, DecisionFor, RowOf;
    KeysOf(s);
    RecordKeeps(s, a);
    ProcessKeeps(s, a);
    QueueingHasHead(s, a);
    RecordNew(s, a);
    NoPending(Record(s, a), ref, r);
  }

  lemma ParkStep(s: State, a: Arrival, ref: Ref, r: Id)
    requires Inv(s) && FreshQueued(s, a, ref)
    requires r in s.runs && s.runs[r].ref == ref && s.runs[r].status.Running?
    ensures var p := Process(s, a);
      && Inv(p.state) && p.run.Some? && !p.enqueue && Parked(p.state, a.newEvent, p.run.value)
      && p.state.runs[p.run.value].ref == ref && CursorAt(p.state, a, a.newEvent)
      && r in p.state.runs && p.state.runs[r] == s.runs[r]
    ensures forall t, q, d :: q in s.runs && s.runs[q].ref == ref && Parked(s, t, q) ==>
      var p := Process(s, a);
      && p.run == Some(q) && Superseded(p.state, t, q)
      && (d != t && d in s.events ==> d in p.state.events && p.state.events[d] == s.events[d])
  {
    hide Inv, Record, Park, FreshQueued, CursorAt, RowOf, Superseded, Process;
    ParksFresh(s, a, ref, r);
    FreshIds(s, a, ref);
    RecordNew(s, a);
    NewTriggersNone(s, a.newEvent);
    ParkEffect(Record(s, a), a, a.newEvent, ref);
    forall t, q | q in s.runs && s.runs[q].ref == ref && Parked(s, t, q) ensures Parked(Record(s, a), t, q) {
    }
  }

  lemma FreshIds(s: State, a: Arrival, ref: Ref)
    requires Inv(s) && FreshQueued(s, a, ref)
    ensures a.newEvent !in s.issued && a.newRun !in s.runs && Known(s, a.payload.key).None? && a.payload.request.Some?
  {
  }

  // ---- one fresh delivery ----------------------------------------------------------------

  /** The run's trigger is queued for it, and the run is unmarked or was marked more than fifteen minutes before `at`. */
  predicate AwaitsDispatch(s: State, r: Id, at: Time)
    requires r in s.runs
  {
    && s.runs[r].trigger.Some? && s.runs[r].trigger.value in s.events
    && s.events[s.runs[r].trigger.value].run == Some(r) && s.events[s.runs[r].trigger.value].status.Queued?
    && (s.runs[r].dispatchedAt.None? || at - s.runs[r].dispatchedAt.value > 900_000_000)
  }

  /** While a run of its ref is PENDING, a fresh queue-decided delivery joins it as a completed duplicate: no run
      and no cursor changes, and the run's own trigger is sent again exactly if it still waits for a dispatch. */
  lemma JoinsPending(s: State, a: Arrival, ref: Ref, r: Id)
    requires Inv(s) && FreshQueued(s, a, ref)
    requires r in s.runs && s.runs[r].ref == ref && s.runs[r].status.Pending?
    ensures var p := Process(s, a);
      && p.event == a.newEvent && p.run == Some(r) && Superseded(p.state, a.newEvent, r)
      && p.state.runs == s.runs && p.state.cursors == s.cursors
      && (forall d :: d in s.events ==> d in p.state.events && p.state.events[d] == s.events[d])
      && p.enqueue == p.dispatchEvent.Some? && (p.enqueue ==> p.dispatchEvent == s.runs[r].trigger)
      && (p.enqueue <==> AwaitsDispatch(s, r, a.clock.dispatch))
  {
    hide Inv, DecisionFor, RecordedRow;
    KeysOf(s);
    FreshIds(s, a, ref);
    OnlyPending(s, r);
    Effects.RecordFrame(s, a);
    RecordNew(s, a);
    NewTriggersNone(s, a.newEvent);
    FreshJoin(Record(s, a), s, a, r);
  }

  lemma FreshJoin(s1: State, s: State, a: Arrival, r: Id)
    requires s1.runs == s.runs && s1.cursors == s.cursors && r in s.runs && a.newEvent !in s.events &&
      a.newEvent in s1.events
    requires s1.events == s.events[a.newEvent := s1.events[a.newEvent]] && s.runs[r].trigger != Some(a.newEvent)
    ensures var p := Join(s1, a, a.newEvent, r);
      && p.run == Some(r) && Superseded(p.state, a.newEvent, r) && p.state.runs == s.runs && p.state.cursors == s.cursors
      && (forall d :: d in s.events ==> d in p.state.events && p.state.events[d] == s.events[d])
      && p.dispatchEvent == DispatchEvent(s, r, a.clock.dispatch) && p.enqueue == p.dispatchEvent.Some?
  {
  }

  /** With no PENDING or RUNNING run on its ref, a fresh queue-decided delivery starts its own run, takes the
      cursor, and asks to be enqueued. */
  lemma StartsFresh(s: State, a: Arrival, ref: Ref)
    requires Inv(s) && FreshQueued(s, a, ref) && ManualAllowed(s, ref)
    ensures var p := Process(s, a);
      && p.run == Some(a.newRun) && p.enqueue && p.dispatchEvent == Some(a.newEvent) && CursorAt(p.state, a, a.newEvent)
      && p.state.runs.Keys == s.runs.Keys + {a.newRun} && (forall q :: q in s.runs ==> p.state.runs[q] == s.runs[q])
      && Matches(p.state.runs[a.newRun], ref, Pending) && p.state.runs[a.newRun].trigger == Some(a.newEvent)
      && LinkedTo(p.state, a.newEvent, a.newRun) && p.state.events[a.newEvent].status.Queued?
      && p.state.events[a.newEvent].decision.Queued?
  {
    hide Inv, DecisionFor, RecordedRow;
    KeysOf(s);
    FreshIds(s, a, ref);
    Effects.RecordFrame(s, a);
    RecordNew(s, a);
    FreshHead(s, a, ref);
  }

  lemma FreshHead(s: State, a: Arrival, ref: Ref)
    requires Inv(s) && FreshQueued(s, a, ref)
    ensures a.payload.head.Some? && DecisionFor(s, a).Queued?
  {
    QueueingHasHead(s, a);
  }

  // ---- whole bursts ----------------------------------------------------------------------

  /** Where a burst has got to: its last delivery is parked, the others are superseded on the same run. */
  ghost predicate Coalesced(s: State, deliveries: seq<Arrival>, ref: Ref, b: Id)
    requires |deliveries| > 0
  {
    var last := deliveries[|deliveries| - 1];
    && b in s.runs && s.runs[b].ref == ref && OnlyBlocked(s, ref, b)
    && Parked(s, last.newEvent, b) && CursorAt(s, last, last.newEvent)
    && forall i :: 0 <= i < |deliveries| - 1 ==>
         deliveries[i].newEvent != last.newEvent && Superseded(s, deliveries[i].newEvent, b)
  }

  lemma BurstPrefix(s: State, deliveries: seq<Arrival>, ref: Ref)
    requires Burst(s, deliveries, ref) && |deliveries| > 0
    ensures Burst(s, deliveries[..|deliveries| - 1], ref)
    ensures FreshQueued(ProcessAll(s, deliveries[..|deliveries| - 1]), deliveries[|deliveries| - 1], ref)
  {
    hide FreshQueued, ProcessAll;
    var init := deliveries[..|deliveries| - 1];
    forall i | 0 <= i < |init| ensures FreshQueued(ProcessAll(s, init[..i]), init[i], ref) {
      assert init[..i] == deliveries[..i];
    }
  }

  lemma CoalescedThen(s: State, deliveries: seq<Arrival>, ref: Ref, r: Id, b: Id, t: State)
    requires |deliveries| > 1 && var init := deliveries[..|deliveries| - 1]; Coalesced(t, init, ref, b)
    requires Inv(t) && FreshQueued(t, deliveries[|deliveries| - 1], ref)
    requires r in t.runs && t.runs[r].ref == ref && t.runs[r].status.Running?
    ensures Coalesced(Process(t, deliveries[|deliveries| - 1]).state, deliveries, ref, b)
  {
    hide Inv, FreshQueued, CursorAt, Process, OnlyBlocked;
    var n := |deliveries|;
    var init, a := deliveries[..n - 1], deliveries[n - 1];
    ParkStep(t, a, ref, r);
    FreshIds(t, a, ref);
    KeysOf(t);
    var p := Process(t, a);
    assert init[n - 2] == deliveries[n - 2];
    assert p.run == Some(b);
    OnlyOneBlocked(p.state, ref, b);
    forall i | 0 <= i < n - 1 ensures deliveries[i].newEvent != a.newEvent &&
      Superseded(p.state, deliveries[i].newEvent, b) {
      assert init[i] == deliveries[i];
    }
  }

  /** Latest wins. While a run is RUNNING for a ref, any nonempty burst of fresh queue-decided deliveries
      leaves exactly one BLOCKED run, triggered by the last of them, which is queued and VALIDATED on it and
      holds the cursor; every earlier one is a completed duplicate on that same run. */
  lemma {:induction false} LatestWins(s: State, deliveries: seq<Arrival>, ref: Ref, r: Id)
    requires Inv(s) && r in s.runs && s.runs[r].ref == ref && s.runs[r].status.Running?
    requires |deliveries| > 0 && Burst(s, deliveries, ref)
    ensures var s' := ProcessAll(s, deliveries);
      Inv(s') && r in s'.runs && s'.runs[r] == s.runs[r] && exists b :: Coalesced(s', deliveries, ref, b)
    decreases |deliveries|
  {
    hide Inv, FreshQueued, Burst, CursorAt, Process, OnlyBlocked, Parked;
    var init, last := deliveries[..|deliveries| - 1], deliveries[|deliveries| - 1];
    BurstPrefix(s, deliveries, ref);
    var t := ProcessAll(s, init);
    if |init| == 0 {
      ParkStep(s, last, ref, r);
      OnlyParked(Process(s, last), last.newEvent, ref);
      assert Coalesced(Process(s, last).state, deliveries, ref, Process(s, last).run.value);
    } else {
      LatestWins(s, init, ref, r);
      var b :| Coalesced(t, init, ref, b);
      CoalescedThen(s, deliveries, ref, r, b, t);
      ParkStep(t, last, ref, r);
    }
  }

  lemma OnlyParked(p: Processed, e: Id, ref: Ref)
    requires p.run.Some? && Inv(p.state) && Parked(p.state, e, p.run.value) && p.state.runs[p.run.value].ref == ref
    ensures OnlyBlocked(p.state, ref, p.run.value) && p.run.value in p.state.runs
  {
  }

  // ---- repeats of one delivery -----------------------------------------------------------

  /** Only row `e` differs, and only in its decision and status. */
  ghost predicate SameButDecision(s: State, s': State, e: Id) {
    && e in s.events && e in s'.events
    && s' == s.(events := s.events[e := s.events[e].(decision := s'.events[e].decision, status := s'.events[e].status)])
  }

  predicate Settled(ev: Event) {
    (ev.decision.DuplicateDelivery? || ev.decision.RecordOnly?) && ev.status.Completed?
  }

  lemma RepeatOnce(s: State, a: Arrival)
    requires Known(s, a.payload.key).Some? && !IsRetry(s, a)
    ensures var (p, e) := (Process(s, a), Known(s, a.payload.key).value);
      && SameButDecision(s, p.state, e) && Settled(p.state.events[e]) && !p.enqueue && p.run.None?
  {
    hide IsRetry, Join, Park, Start, Latest;
    assert !DecisionFor(s, a).Queued? && !DecisionFor(s, a).DuplicateHead?;
  }

  lemma SettledNotRetried(s: State, a: Arrival)
    requires Known(s, a.payload.key).Some? && Settled(s.events[Known(s, a.payload.key).value])
    ensures !IsRetry(s, a)
  {
  }

  lemma SameKnown(s: State, s': State, e: Id, key: DeliveryKey)
    requires SameButDecision(s, s', e)
    ensures Known(s', key) == Known(s, key)
  {
  }

  lemma SameTwice(s: State, s': State, s'': State, e: Id)
    requires SameButDecision(s, s', e) && SameButDecision(s', s'', e)
    ensures SameButDecision(s, s'', e)
  {
    assert s''.events == s.events[e := s.events[e].(decision := s''.events[e].decision, status := s''.events[e].status)];
  }

  /** Repeating a delivery that is not retryable, any number of times in a row and whatever is observed each
      time, adds no run, moves no cursor, changes no other event and enqueues nothing. */
  lemma {:induction false} RepeatsChangeNothing(s: State, repeats: seq<Arrival>, key: DeliveryKey)
    requires Known(s, key).Some? && |repeats| > 0 && forall i :: 0 <= i < |repeats| ==> repeats[i].payload.key == key
    requires !IsRetry(s, repeats[0])
    ensures var s' := ProcessAll(s, repeats);
      SameButDecision(s, s', Known(s, key).value) && Settled(s'.events[Known(s, key).value])
    ensures var p := Process(ProcessAll(s, repeats[..|repeats| - 1]), repeats[|repeats| - 1]); !p.enqueue && p.run.None?
    decreases |repeats|
  {
    hide IsRetry, Process, SameButDecision, Settled, Known;
    var e := Known(s, key).value;
    var init, last := repeats[..|repeats| - 1], repeats[|repeats| - 1];
    if |init| == 0 {
      RepeatOnce(s, last);
    } else {
      RepeatsChangeNothing(s, init, key);
      var t := ProcessAll(s, init);
      SameKnown(s, t, e, key);
      SettledNotRetried(t, last);
      RepeatOnce(t, last);
      SameTwice(s, t, ProcessAll(s, repeats), e);
    }
  }

  /** In every reachable world, when the delivery of a queued event comes again, worth doing, while its run is still
      PENDING and unmarked or marked more than fifteen minutes ago, it joins that very run and adds none; if it is the
      run's trigger, it is enqueued again. */
  lemma RetryReusesRun(w: World, a: Arrival, version: Option<nat>, e: Id, r: Id)
    requires Sound(w) && CanDeliver(w, a, version)
    requires a.payload.key in w.db.deliveries && w.db.deliveries[a.payload.key] == e && e in w.db.events
    requires w.db.events[e].decision.Queued? && w.db.events[e].status.Queued? && w.db.events[e].run == Some(r)
    requires r in w.db.runs && w.db.runs[r].status.Pending?
    requires w.db.runs[r].dispatchedAt.None? || a.clock.retry - w.db.runs[r].dispatchedAt.value > 900_000_000
    requires Worthwhile(a.payload, a.seen, CursorHead(w.db, a.payload))
    ensures var p := Process(w.db, a);
      && p.event == e && p.run == Some(r) && p.state.runs == w.db.runs && LinkedTo(p.state, e, r)
      && (w.db.runs[r].trigger == Some(e) ==>
            p.enqueue && p.dispatchEvent == Some(e) && p.state.events[e].status.Queued?)
      && (w.db.runs[r].trigger == Some(e) && a.payload.targetKey != "" ==> CursorAt(p.state, a, e))
  {
    hide Sound, Inv, CanDeliver, IsRetry, DecisionFor, Retryable, Record, Join, CursorAt;
    Steps.InvOf(w);
    RetryRef(w, a, version, e, r);
    OnlyPending(w.db, r);
    StaleRetried(w.db, a, e, r);
    ForwardClock(w, a, version);
    Effects.RecordFrame(w.db, a);
    assert EventOf(w.db, a) == e;
    RetriedRow(w.db, a, e);
    RetryJoins(Record(w.db, a), w.db, a, e, r);
  }

  lemma ForwardClock(w: World, a: Arrival, version: Option<nat>)
    requires CanDeliver(w, a, version)
    ensures a.clock.now <= a.clock.retry <= a.clock.dispatch
  {
  }

  lemma StaleRetried(s: State, a: Arrival, e: Id, r: Id)
    requires Inv(s) && Known(s, a.payload.key) == Some(e)
    requires s.events[e].decision.Queued? && s.events[e].status.Queued? && s.events[e].run == Some(r)
    requires r in s.runs && s.runs[r].status.Pending?
    requires s.runs[r].dispatchedAt.None? || a.clock.retry - s.runs[r].dispatchedAt.value > 900_000_000
    requires Worthwhile(a.payload, a.seen, CursorHead(s, a.payload))
    ensures IsRetry(s, a) && DecisionFor(s, a).Queued?
  {
    hide Inv, Worthwhile;
    KeysOf(s);
    RunOf(s, e);
    WorthQueueing(s, a);
  }

  lemma WorthQueueing(s: State, a: Arrival)
    requires Worthwhile(a.payload, a.seen, CursorHead(s, a.payload)) && IsRetry(s, a)
    ensures DecisionFor(s, a).Queued?
  {
    hide IsRetry, Known;
    DecidedExactly(a.payload, a.seen, Known(s, a.payload.key).Some?, CursorHead(s, a.payload), true);
  }

  lemma RetryJoins(s1: State, s: State, a: Arrival, e: Id, r: Id)
    requires s1.runs == s.runs && r in s.runs && e in s1.events && s1.events[e].status.Queued?
    requires s1.events[e].run == Some(r) && a.payload.head.Some?
    ensures var p := Join(s1, a, e, r);
      && p.event == e && p.run == Some(r) && p.state.runs == s.runs && LinkedTo(p.state, e, r)
      && (s.runs[r].trigger == Some(e)
          && (s.runs[r].dispatchedAt.None? || a.clock.dispatch - s.runs[r].dispatchedAt.value > 900_000_000) ==>
            && p.enqueue && p.dispatchEvent == Some(e) && p.state.events[e].status.Queued?
            && (a.payload.targetKey != "" ==> CursorAt(p.state, a, e)))
  {
  }

  lemma RetriedRow(s: State, a: Arrival, e: Id)
    requires Known(s, a.payload.key) == Some(e) && IsRetry(s, a) && DecisionFor(s, a).Queued?
    ensures var s1 := Record(s, a);
      && s1.runs == s.runs && e in s1.events && s1.events[e].status.Queued? && s1.events[e].run == s.events[e].run
  {
    hide DecisionFor, IsRetry;
  }

  lemma OnlyPending(s: State, r: Id)
    requires Inv(s) && r in s.runs && s.runs[r].status.Pending?
    ensures Latest(s.runs, s.runs[r].ref, Pending) == Some(r)
  {
  }

  lemma RetryRef(w: World, a: Arrival, version: Option<nat>, e: Id, r: Id)
    requires Sound(w) && CanDeliver(w, a, version) && Known(w.db, a.payload.key) == Some(e)
    requires w.db.events[e].run == Some(r) && r in w.db.runs
    ensures a.payload.request.Some? && RequestedRef(a.payload) == w.db.runs[r].ref
  {
    hide Inv, MessagesSound, AnnouncedSound, BegunSound, BuiltSound, WorkersSound, RequestedRef, PayloadsSound;
    Steps.InvOf(w);
    assert AsksFor(w.db.events, w.payloads, e, w.db.runs[r].ref);
  }
}
