/** What holds between any two moments of any run of the state machine. */
module RunHistory {
  import opened Model
  import opened Deciding
  import opened Transactions
  import opened Invariant
  import opened Effects
  import opened World
  import opened Reachable
  import opened Steps
  import opened Safety

  // ---- every step evolves the tables -----------------------------------------------------

  /** The links a step may store, and the run it may start or complete. */
  ghost function AddedBy(w: World, st: Step): set<(Id, Id)> {
    match st
    case Deliver(a, _) => LinkOf(Process(w.db, a))
    case EnqueueFailure(e, r, _) => {(e, r)}
    case _ => {}
  }

  function MovedBy(w: World, st: Step): set<Id> {
    if st.Work? && st.worker in w.workers then {w.workers[st.worker].task.run} else {}
  }

  lemma AfterDeliveryDb(w: World, a: Arrival, version: Option<nat>)
    ensures AfterDelivery(w, a, version).db == Process(w.db, a).state
  {
    hide Process, Links, Known;
    assert Delivered(w, a).db == Process(w.db, a).state;
    assert Announced(w, a, version).db == Process(w.db, a).state;
  }

  lemma AfterWorkDb(w: World, k: Id, c: Choice)
    requires k in w.workers
    ensures AfterWork(w, k, c).db == DbAfter(w.db, w.queueConfigured, w.workers[k], c)
  {
    hide Transacted, PhaseAfter, DbAfter;
    TransactedDb(w, k, c);
  }

  /** What each route's step does to the database. */
  lemma RouteDb(w: World, st: Step)
    requires Enabled(w, st)
    ensures st.ClaimDispatch? ==> Next(w, st).db == Claim(w.db, st.run, st.at, st.at - RETRY_AFTER)
    ensures st.EnqueueFailure? ==> Next(w, st).db == EnqueueFailed(w.db, st.event, st.run)
    ensures st.RequestManual? ==> Next(w, st).db == CreateManual(w.db, st.ref, st.origin, st.newRun, st.at)
    ensures st.WithdrawManual? ==> Next(w, st).db == CancelManual(w.db, st.run)
    ensures st.SaveScopeRules? ==> Next(w, st).db == SaveScope(w.db, st.conn, st.newScope)
    ensures st.Push? || st.Take? || st.Refuse? ==> Next(w, st).db == w.db
  {
    hide Links, SetRun, CreateRun, EnqueueFailed, CancelManual, SaveScope, Heads, AfterDelivery, AfterWork, Claimable,
      ManualAllowed;
  }

  lemma RouteEvolves(w: World, st: Step)
    requires Inv(w.db) && Enabled(w, st) && !st.Deliver? && !st.Work?
    ensures Evolves(w.db, Next(w, st).db, AddedBy(w, st), {})
  {
    hide Inv, Evolves, Next, CreateManual, Claim, EnqueueFailed, CancelManual, SaveScope;
    KeysOf(w.db);
    RouteDb(w, st);
    Unchanged(w.db, {}, {});
    match st
    case ClaimDispatch(_, r, at) => ClaimEvolves(w.db, r, at, at - RETRY_AFTER);
    case EnqueueFailure(e, r, _) => EnqueueFailedEvolves(w.db, e, r);
    case RequestManual(ref, origin, r, at) => ManualEvolves(w.db, ref, origin, r, at);
    case WithdrawManual(r) => CancelEvolves(w.db, r);
    case SaveScopeRules(conn, scope) => ScopeEvolves(w.db, conn, scope);
    case _ =>
  }

  lemma NextEvolves(w: World, st: Step)
    requires Sound(w) && Enabled(w, st)
    ensures Evolves(w.db, Next(w, st).db, AddedBy(w, st), MovedBy(w, st))
  {
    hide Sound, Inv, Evolves, AfterDelivery, AfterWork, CanDeliver, Process, DbAfter;
    InvOf(w);
    if st.Deliver? {
      DeliveryAdmissible(w, st.arrival, st.version);
      ProcessEvolves(w.db, st.arrival);
      AfterDeliveryDb(w, st.arrival, st.version);
    } else if st.Work? {
      DbEvolves(w, st.worker, st.choice);
      AfterWorkDb(w, st.worker, st.choice);
    } else {
      RouteEvolves(w, st);
    }
  }

  // ---- status only moves forward ---------------------------------------------------------

  /** Ids stay issued; a run that is still there, or whose id was already issued, was there before, kept its
      ref and origin and never moved back; a run that has started is never removed. */
  ghost predicate OnlyForward(s: State, s': State) {
    && s.issued <= s'.issued
    && (forall r :: r in s'.runs && r in s.issued ==> r in s.runs && Forward(s.runs[r], s'.runs[r]))
    && (forall r :: r in s.runs && StatusRank(s.runs[r].status) >= 2 ==> r in s'.runs)
  }

  lemma ForwardThen(s: State, s': State, s'': State, added: set<(Id, Id)>, moved: set<Id>)
    requires OnlyForward(s, s') && Evolves(s', s'', added, moved) && s.runs.Keys <= s.issued
    ensures OnlyForward(s, s'')
  {
    hide EventsKept, SnapshotsKept, LinkStep, TriggerStep, StatusStep;
  }

  lemma StillForward(s: State)
    requires s.runs.Keys <= s.issued
    ensures OnlyForward(s, s)
  {
  }

  /** Along any run, whatever interleaves, statuses only move forward in
      blocked < pending < running < failed < succeeded. */
  lemma {:induction false} StatusOnlyForward(ws: seq<World>, steps: seq<Step>, i: nat, j: nat)
    requires Execution(ws, steps) && i <= j < |ws|
    ensures OnlyForward(ws[i].db, ws[j].db)
    decreases j - i
  {
    hide Sound, Inv, OnlyForward, Evolves, AddedBy, MovedBy;
    AlwaysSound(ws, steps, i);
    InvOf(ws[i]);
    KeysOf(ws[i].db);
    if i == j {
      StillForward(ws[i].db);
    } else {
      StatusOnlyForward(ws, steps, i, j - 1);
      AlwaysSound(ws, steps, j - 1);
      NextEvolves(ws[j - 1], steps[j - 1]);
      ForwardThen(ws[i].db, ws[j - 1].db, ws[j].db, AddedBy(ws[j - 1], steps[j - 1]), MovedBy(ws[j - 1], steps[j - 1]));
    }
  }

  /** SUCCEEDED is absorbing, with the commit it resolved, and a terminal run never becomes active again. */
  lemma TerminalStays(ws: seq<World>, steps: seq<Step>, i: nat, j: nat, r: Id)
    requires Execution(ws, steps) && i <= j < |ws| && r in ws[i].db.runs && IsTerminal(ws[i].db.runs[r].status)
    ensures r in ws[j].db.runs && IsTerminal(ws[j].db.runs[r].status)
    ensures ws[i].db.runs[r].status.Succeeded? ==>
      ws[j].db.runs[r].status.Succeeded? && ws[j].db.runs[r].resolved == ws[i].db.runs[r].resolved
  {
    hide Sound, Inv, Execution;
    StatusOnlyForward(ws, steps, i, j);
    AlwaysSound(ws, steps, i);
    InvOf(ws[i]);
    KeysOf(ws[i].db);
  }

  /** The step marks `r` RUNNING. */
  predicate Starts(w: World, st: Step, r: Id) {
    && st.Work? && st.worker in w.workers && w.workers[st.worker].task.run == r
    && w.workers[st.worker].phase.Starting? && !st.choice.outcome.Error? && Startable(w.db, r)
  }

  lemma StartedThen(w: World, st: Step, r: Id)
    requires Enabled(w, st) && Starts(w, st, r)
    ensures var db := Next(w, st).db; r in db.runs && db.runs[r].status.Running?
  {
    hide AfterWork, DbAfter, CanWork, MarkRunning;
    AfterWorkDb(w, st.worker, st.choice);
    StartingDb(w, w.workers[st.worker], st.choice);
    RunningEffect(w.db, r, st.choice.clock.check);
  }

  /** However often a run is dispatched, and whichever workers take it, it starts at most once. */
  lemma StartsAtMostOnce(ws: seq<World>, steps: seq<Step>, i: nat, j: nat, r: Id)
    requires Execution(ws, steps) && i < j < |steps| && Starts(ws[i], steps[i], r)
    ensures !Starts(ws[j], steps[j], r)
  {
    hide Enabled, Next;
    StartedThen(ws[i], steps[i], r);
    StatusOnlyForward(ws, steps, i + 1, j);
    RunIssued(ws, steps, i + 1, r);
  }

  lemma RunIssued(ws: seq<World>, steps: seq<Step>, i: nat, r: Id)
    requires Execution(ws, steps) && i < |ws| && r in ws[i].db.runs
    ensures r in ws[i].db.issued
  {
    hide Sound, Inv, Execution;
    AlwaysSound(ws, steps, i);
    InvOf(ws[i]);
    KeysOf(ws[i].db);
  }

  // ---- no lost update --------------------------------------------------------------------

  lemma DeliveredHistory(w: World, a: Arrival)
    ensures var w' := Delivered(w, a);
      && w'.db == Process(w.db, a).state && w'.links == w.links + Links(w'.db) && w'.announced == w.announced
      && w'.payloads == w.payloads[a.payload.key := a.payload]
  {
    hide Process, Links;
  }

  lemma DeliveryHistory(w: World, a: Arrival, version: Option<nat>)
    ensures var w' := AfterDelivery(w, a, version);
      && w'.links == w.links + Links(w'.db) && w'.payloads == w.payloads[a.payload.key := a.payload]
      && (w'.announced == w.announced
          || (Known(w.db, a.payload.key).None? && version.Some?
              && w'.announced == w.announced[Process(w.db, a).event := version.value]))
  {
    hide Process, Links, Known, Delivered;
    DeliveredHistory(w, a);
  }

  lemma NewEventUnannounced(w: World, a: Arrival, version: Option<nat>)
    requires Sound(w) && CanDeliver(w, a, version) && Known(w.db, a.payload.key).None?
    ensures Process(w.db, a).event !in w.announced
  {
    hide Inv, LinksSound, LinksCover, MessagesSound, BegunSound, BuiltSound, WorkersSound, PayloadsSound, Process, Known,
      CanDeliver, WellShaped, EventOf, Admissible, SamePayload, Indexes;
    InvOf(w);
    DeliveryAdmissible(w, a, version);
    ProcessShape(w.db, a);
    NewEventIsNew(w, a);
  }

  lemma WorkHistory(w: World, k: Id, c: Choice)
    requires k in w.workers
    ensures var w' := AfterWork(w, k, c);
      w'.links == w.links + Links(w'.db) && w'.announced == w.announced && w'.payloads == w.payloads
  {
    hide DbAfter, PhaseAfter, CommitOutcomeOf, Startable, Heads, Links;
  }

  ghost predicate KeepsHistory(w: World, w': World) {
    w.links <= w'.links <= w.links + Links(w'.db) && w'.announced == w.announced && w'.payloads == w.payloads
  }

  lemma CommitHistory(w: World, db: State, clock: Time, tasks: set<Task>, manual: set<Id>)
    ensures KeepsHistory(w, Commit(w, db).(clock := clock, tasks := tasks, manual := manual))
  {
    hide Links;
  }

  lemma QueueHistory(w: World, st: Step)
    requires Enabled(w, st) && (st.ClaimDispatch? || st.EnqueueFailure? || st.Refuse?)
    ensures KeepsHistory(w, Next(w, st))
  {
    hide Links, Claim, EnqueueFailed, Claimable, KeepsHistory;
    if st.Refuse? {
      CommitHistory(w, Reject(w.db, st.key, st.newEvent, st.at), st.at, w.tasks, w.manual);
    } else if st.EnqueueFailure? {
      CommitHistory(w, EnqueueFailed(w.db, st.event, st.run), st.at, w.tasks, w.manual);
    } else if Claimable(w.db, st.run, st.at - RETRY_AFTER) {
      CommitHistory(w, Claim(w.db, st.run, st.at, st.at - RETRY_AFTER), st.at,
                    w.tasks + {WebhookTask(st.event, st.run)}, w.manual);
    } else {
      ClockHistory(w, st.at);
    }
  }

  lemma ClockHistory(w: World, at: Time)
    ensures KeepsHistory(w, w.(clock := at))
  {
    hide Links;
  }

  lemma ManualHistory(w: World, st: Step)
    requires Enabled(w, st) && (st.RequestManual? || st.WithdrawManual? || st.SaveScopeRules?)
    ensures KeepsHistory(w, Next(w, st))
  {
    hide Links, CreateManual, ManualAllowed, CancelManual, SaveScope, KeepsHistory;
    if st.WithdrawManual? {
      CommitHistory(w, CancelManual(w.db, st.run), w.clock, w.tasks, w.manual);
    } else if st.SaveScopeRules? {
      CommitHistory(w, SaveScope(w.db, st.conn, st.newScope), w.clock, w.tasks, w.manual);
    } else if ManualAllowed(w.db, st.ref) {
      CommitHistory(w, CreateManual(w.db, st.ref, st.origin, st.newRun, st.at), st.at,
                    w.tasks + {ManualTask(st.newRun)}, w.manual + {st.newRun});
    } else {
      ClockHistory(w, st.at);
    }
  }

  lemma IdleHistory(w: World, st: Step)
    requires Enabled(w, st) && (st.Push? || st.Take?)
    ensures KeepsHistory(w, Next(w, st))
  {
    hide Links, Heads;
  }

  /** Links and announced versions are never forgotten or changed, and a new link is one stored now. */
  lemma NextHistory(w: World, st: Step)
    requires Sound(w) && Enabled(w, st)
    ensures var w' := Next(w, st); w.links <= w'.links <= w.links + Links(w'.db) && Grows(w.announced, w'.announced)
  {
    hide Sound, Links, AfterDelivery, AfterWork, CanDeliver, Process;
    if st.Deliver? {
      DeliveryHistory(w, st.arrival, st.version);
      if Known(w.db, st.arrival.payload.key).None? { NewEventUnannounced(w, st.arrival, st.version); }
      AfterDeliveryDb(w, st.arrival, st.version);
    } else if st.Work? {
      WorkHistory(w, st.worker, st.choice);
    } else if st.ClaimDispatch? || st.EnqueueFailure? || st.Refuse? {
      QueueHistory(w, st);
    } else if st.Push? || st.Take? {
      IdleHistory(w, st);
    } else {
      ManualHistory(w, st);
    }
  }

  lemma {:induction false} HistoryKept(ws: seq<World>, steps: seq<Step>, i: nat, j: nat)
    requires Execution(ws, steps) && i <= j < |ws|
    ensures ws[i].links <= ws[j].links && Grows(ws[i].announced, ws[j].announced)
    decreases j - i
  {
    hide Sound, Links;
    if i < j {
      HistoryKept(ws, steps, i, j - 1);
      AlwaysSound(ws, steps, j - 1);
      NextHistory(ws[j - 1], steps[j - 1]);
    }
  }

  lemma NewLinkNotStarted(w: World, st: Step, e: Id, r: Id)
    requires Sound(w) && Enabled(w, st) && (e, r) !in w.links && (e, r) in Next(w, st).links
    ensures var db := Next(w, st).db; r in db.runs && StatusRank(db.runs[r].status) <= 1
  {
    hide Sound, Inv, Evolves, Process, CanDeliver, Links, AfterDelivery, AfterWork, LinksCover, EventsKept;
    NextHistory(w, st);
    LinkStoredNow(Next(w, st).db, e, r);
    NextEvolves(w, st);
    InvOf(w);
    CoverOf(w);
    LinkOrigin(w.db, Next(w, st).db, w.payloads, w.links, AddedBy(w, st), MovedBy(w, st), e, r);
    if st.Deliver? {
      DeliveryAdmissible(w, st.arrival, st.version);
      ProcessEvolves(w.db, st.arrival);
      AfterDeliveryDb(w, st.arrival, st.version);
    } else if st.EnqueueFailure? {
      DispatchOf(w, e, r);
    }
  }

  lemma LinkStoredNow(s: State, e: Id, r: Id)
    ensures (e, r) in Links(s) ==> LinkedTo(s, e, r)
  {
  }

  /** The transaction that first links an event to a run comes before the run's start. */
  lemma LinkedBeforeStart(ws: seq<World>, steps: seq<Step>, i: nat, j: nat, e: Id, r: Id)
    requires Execution(ws, steps) && i < |steps| && j < |steps|
    requires (e, r) !in ws[i].links && (e, r) in ws[i + 1].links && Starts(ws[j], steps[j], r)
    ensures i < j
  {
    hide Sound, Enabled, Next;
    AlwaysSound(ws, steps, i);
    NewLinkNotStarted(ws[i], steps[i], e, r);
    StartedThen(ws[j], steps[j], r);
    if j <= i {
      StatusOnlyForward(ws, steps, j + 1, i + 1);
      RunIssued(ws, steps, j + 1, r);
    }
  }

  /** No lost update. An event that was ever linked to a run announced a head the remote really had. If the
      run succeeds, the commit it resolved is a head at least as new as that one. */
  lemma NoLostUpdate(ws: seq<World>, steps: seq<Step>, i: nat, j: nat, e: Id, r: Id)
    requires Execution(ws, steps) && i <= j < |ws|
    requires e in ws[i].db.events && ws[i].db.events[e].run == Some(r) && e in ws[i].announced
    requires r in ws[j].db.runs && ws[j].db.runs[r].status.Succeeded?
    ensures var heads := Heads(ws[j], ws[j].db.runs[r].ref);
      exists built: nat :: ws[i].announced[e] <= built < |heads| && ws[j].db.runs[r].resolved == Some(heads[built])
    ensures var heads := Heads(ws[j], ws[j].db.runs[r].ref);
      && ws[i].announced[e] < |heads| && e in ws[j].db.events
      && ws[j].db.events[e].head == Some(heads[ws[i].announced[e]])
  {
    hide Sound, Execution, Heads, HeadsOf;
    AlwaysSound(ws, steps, i);
    AlwaysSound(ws, steps, j);
    HistoryKept(ws, steps, i, j);
    LinkNoted(ws[i], e, r);
    UpdateNotLost(ws[j], e, r);
  }

  lemma LinkNoted(w: World, e: Id, r: Id)
    requires Sound(w) && LinkedTo(w.db, e, r)
    ensures (e, r) in w.links
  {
    hide Inv, LinksSound, MessagesSound, AnnouncedSound, BegunSound, BuiltSound, WorkersSound, PayloadsSound;
  }

  lemma UpdateNotLost(w: World, e: Id, r: Id)
    requires Sound(w) && (e, r) in w.links && e in w.announced && r in w.db.runs && w.db.runs[r].status.Succeeded?
    ensures e in w.db.events && r in w.built
    ensures var heads := Heads(w, w.db.runs[r].ref);
      && w.announced[e] <= w.built[r] < |heads| && w.db.runs[r].resolved == Some(heads[w.built[r]])
      && w.db.events[e].head == Some(heads[w.announced[e]])
  {
    hide Inv, LinksCover, MessagesSound, WorkersSound, PayloadsSound, HeadsOf, RequestedRef;
    assert AsksFor(w.db.events, w.payloads, e, w.db.runs[r].ref);
  }
}
