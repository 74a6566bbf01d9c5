/** Every step of every route and worker keeps the state machine's invariant. */
module Steps {
  import opened Model
  import opened Deciding
  import opened Transactions
  import opened Invariant
  import opened Effects
  import opened World
  import opened Reachable

  ghost predicate Grows<K, V>(m: map<K, V>, m': map<K, V>) {
    forall k :: k in m ==> k in m' && m'[k] == m[k]
  }

  // ---- one component at a time -----------------------------------------------------------

  lemma AsksForKept(
    events: map<Id, Event>, payloads: map<DeliveryKey, Payload>,
    events': map<Id, Event>, payloads': map<DeliveryKey, Payload>, e: Id, ref: Ref)
    requires AsksFor(events, payloads, e, ref) && EventsKept(events, events') && Grows(payloads, payloads')
    ensures AsksFor(events', payloads', e, ref)
  {
  }

  /** A link in `added` is an old one, or joins a stored event to a run of its ref that has not started. */
  ghost predicate AddedOk(s': State, payloads': map<DeliveryKey, Payload>, links: set<(Id, Id)>, added: set<(Id, Id)>) {
    forall e, r :: (e, r) in added && (e, r) !in links ==>
      && LinkedTo(s', e, r) && r in s'.runs && StatusRank(s'.runs[r].status) <= 1
      && AsksFor(s'.events, payloads', e, s'.runs[r].ref)
  }

  lemma LinksKept(
    s: State, s': State, payloads: map<DeliveryKey, Payload>, payloads': map<DeliveryKey, Payload>,
    links: set<(Id, Id)>, added: set<(Id, Id)>, moved: set<Id>)
    requires LinksSound(s, payloads, links) && LinksCover(s, links) && Evolves(s, s', added, moved)
    requires Grows(payloads, payloads') && AddedOk(s', payloads', links, added)
    requires s'.runs.Keys <= s'.issued
    ensures LinksSound(s', payloads', links + Links(s')) && LinksCover(s', links + Links(s'))
  {
    hide EventsKept, SnapshotsKept, StatusStep, LinkStep, TriggerStep, AsksFor;
    forall e, r | (e, r) in links + Links(s')
      ensures e in s'.events && r in s'.issued && (r in s'.runs ==> AsksFor(s'.events, payloads', e, s'.runs[r].ref))
    {
      if (e, r) !in links { LinkOrigin(s, s', payloads', links, added, moved, e, r); }
      if (e, r) in links { OldLinkKept(s, s', payloads, payloads', links, added, moved, e, r); }
    }
    TriggersCovered(s, s', payloads', links, added, moved);
  }

  lemma OldLinkKept(
    s: State, s': State, payloads: map<DeliveryKey, Payload>, payloads': map<DeliveryKey, Payload>,
    links: set<(Id, Id)>, added: set<(Id, Id)>, moved: set<Id>, e: Id, r: Id)
    requires LinksSound(s, payloads, links) && Evolves(s, s', added, moved) && Grows(payloads, payloads')
    requires (e, r) in links
    ensures e in s'.events && r in s'.issued && (r in s'.runs ==> AsksFor(s'.events, payloads', e, s'.runs[r].ref))
  {
    hide SnapshotsKept, StatusStep, LinkStep, TriggerStep, AsksFor;
    if r in s'.runs {
      AsksForKept(s.events, payloads, s'.events, payloads', e, s.runs[r].ref);
    }
  }

  /** A link stored now is an old one or one of `added`. */
  lemma LinkOrigin(
    s: State, s': State, payloads': map<DeliveryKey, Payload>,
    links: set<(Id, Id)>, added: set<(Id, Id)>, moved: set<Id>, e: Id, r: Id)
    requires LinksCover(s, links) && Evolves(s, s', added, moved) && LinkedTo(s', e, r)
    ensures (e, r) in links || (e, r) in added
  {
    hide EventsKept, SnapshotsKept, StatusStep, TriggerStep, RunsForward;
  }

  lemma TriggersCovered(
    s: State, s': State, payloads': map<DeliveryKey, Payload>,
    links: set<(Id, Id)>, added: set<(Id, Id)>, moved: set<Id>)
    requires LinksCover(s, links) && Evolves(s, s', added, moved) && AddedOk(s', payloads', links, added)
    ensures LinksCover(s', links + Links(s'))
  {
    hide EventsKept, SnapshotsKept, StatusStep, LinkStep, RunsForward, AsksFor;
  }

  lemma DispatchableKept(s: State, s': State, added: set<(Id, Id)>, moved: set<Id>, r: Id)
    requires Evolves(s, s', added, moved) && Dispatchable(s, r)
    ensures Dispatchable(s', r)
  {
    hide EventsKept, SnapshotsKept, StatusStep, LinkStep, TriggerStep;
  }

  lemma MessagesKept(
    s: State, s': State, added: set<(Id, Id)>, moved: set<Id>,
    links: set<(Id, Id)>, links': set<(Id, Id)>, dispatches: set<(Id, Id)>, tasks: set<Task>)
    requires MessagesSound(s, links, dispatches, tasks) && Evolves(s, s', added, moved) && links <= links'
    ensures MessagesSound(s', links', dispatches, tasks)
  {
    hide Evolves, Dispatchable;
    forall e, r | (e, r) in dispatches ensures (e, r) in links' && Dispatchable(s', r) {
      DispatchableKept(s, s', added, moved, r);
    }
    forall t | t in tasks ensures TaskSound(s', links', t) {
      assert TaskSound(s, links, t);
      DispatchableKept(s, s', added, moved, t.run);
    }
  }

  lemma AnnouncedKept(
    events: map<Id, Event>, events': map<Id, Event>, payloads: map<DeliveryKey, Payload>,
    payloads': map<DeliveryKey, Payload>, remote: map<Ref, seq<Sha>>, announced: map<Id, nat>)
    requires AnnouncedSound(events, payloads, remote, announced)
    requires EventsKept(events, events') && Grows(payloads, payloads')
    ensures AnnouncedSound(events', payloads', remote, announced)
  {
    hide HeadsOf, RequestedRef;
  }

  lemma BegunKept(
    s: State, s': State, payloads': map<DeliveryKey, Payload>, remote: map<Ref, seq<Sha>>, begun: map<Id, nat>,
    links: set<(Id, Id)>, announced: map<Id, nat>, added: set<(Id, Id)>)
    requires BegunSound(s.runs, remote, begun, links, announced) && LinksCover(s, links)
    requires Evolves(s, s', added, {}) && AddedOk(s', payloads', links, added)
    ensures BegunSound(s'.runs, remote, begun, links + Links(s'), announced)
  {
    hide EventsKept, SnapshotsKept, LinkStep, TriggerStep, AsksFor, HeadsOf;
    forall e, r | (e, r) in links + Links(s') && r in begun && e in announced ensures announced[e] < begun[r] {
      if (e, r) !in links { LinkOrigin(s, s', payloads', links, added, {}, e, r); }
    }
  }

  lemma BuiltKept(
    s: State, s': State, added: set<(Id, Id)>, remote: map<Ref, seq<Sha>>, begun: map<Id, nat>, built: map<Id, nat>)
    requires BuiltSound(s.runs, remote, begun, built) && Evolves(s, s', added, {})
    ensures BuiltSound(s'.runs, remote, begun, built)
  {
    hide EventsKept, SnapshotsKept, LinkStep, TriggerStep, HeadsOf;
  }

  lemma StartedKept(
    s: State, s': State, added: set<(Id, Id)>, moved: set<Id>, begun: map<Id, nat>, begun': map<Id, nat>, r: Id)
    requires Started(s.runs, begun, r) && Evolves(s, s', added, moved) && Grows(begun, begun')
    ensures Started(s'.runs, begun', r) && s'.runs[r].ref == s.runs[r].ref && begun'[r] == begun[r]
    ensures s.runs[r].status.Succeeded? ==> s'.runs[r].status.Succeeded?
  {
    hide EventsKept, SnapshotsKept, LinkStep, TriggerStep, StatusStep;
  }

  lemma PhaseKept(
    s: State, s': State, added: set<(Id, Id)>, moved: set<Id>, remote: map<Ref, seq<Sha>>,
    links: set<(Id, Id)>, links': set<(Id, Id)>, begun: map<Id, nat>, begun': map<Id, nat>, r: Id, phase: Phase)
    requires PhaseSound(s, remote, links, begun, r, phase) && Evolves(s, s', added, moved)
    requires links <= links' && Grows(begun, begun')
    ensures PhaseSound(s', remote, links', begun', r, phase)
  {
    hide Started, HeadsOf, Dispatchable, RunsForward, EventsKept, LinkStep, TriggerStep, StatusStep;
    match phase
    case Sending(next, message) => DispatchableKept(s, s', added, moved, next);
    case DispatchFailing(next) => DispatchableKept(s, s', added, moved, next);
    case LoadingExisting => SucceededKept(s, s', added, moved, r);
    case _ => if Started(s.runs, begun, r) { StartedKept(s, s', added, moved, begun, begun', r); }
  }

  lemma SucceededKept(s: State, s': State, added: set<(Id, Id)>, moved: set<Id>, r: Id)
    requires Evolves(s, s', added, moved) && r in s.runs && s.runs[r].status.Succeeded?
    ensures r in s'.runs && s'.runs[r].status.Succeeded?
  {
    hide EventsKept, SnapshotsKept, LinkStep, TriggerStep, StatusStep;
  }

  lemma WorkersKept(
    s: State, s': State, added: set<(Id, Id)>, moved: set<Id>, remote: map<Ref, seq<Sha>>,
    links: set<(Id, Id)>, links': set<(Id, Id)>, begun: map<Id, nat>, begun': map<Id, nat>, workers: map<Id, Worker>)
    requires WorkersSound(s, remote, links, begun, workers) && Evolves(s, s', added, moved)
    requires links <= links' && Grows(begun, begun')
    ensures WorkersSound(s', remote, links', begun', workers)
  {
    hide Evolves, PhaseSound, Dispatchable;
    forall k | k in workers
      ensures TaskSound(s', links', workers[k].task)
              && PhaseSound(s', remote, links', begun', workers[k].task.run, workers[k].phase)
    {
      PhaseKept(s, s', added, moved, remote, links, links', begun, begun', workers[k].task.run, workers[k].phase);
      assert TaskSound(s, links, workers[k].task);
      DispatchableKept(s, s', added, moved, workers[k].task.run);
    }
  }

  lemma PayloadsKept(s: State, s': State, payloads: map<DeliveryKey, Payload>)
    requires PayloadsSound(s.events, payloads) && EventsKept(s.events, s'.events) && s'.events.Keys == s.events.Keys
    ensures PayloadsSound(s'.events, payloads)
  {
    forall e | e in s'.events ensures PayloadOf(s'.events, payloads, e) {
      assert PayloadOf(s.events, payloads, e);
    }
  }

  // ---- a transaction that starts and completes no run ------------------------------------

  lemma Carry(w: World, db: State, added: set<(Id, Id)>)
    requires Sound(w) && Inv(db) && Evolves(w.db, db, added, {}) && db.events.Keys == w.db.events.Keys
    requires added <= w.links
    ensures Sound(Commit(w, db))
  {
    hide Inv, Evolves, LinksSound, LinksCover, MessagesSound, AnnouncedSound, BegunSound, BuiltSound, WorkersSound,
      PayloadsSound, AddedOk;
    var links := w.links + Links(db);
    AddedKnown(db, w.payloads, w.links, added);
    KeysOf(db);
    EvolvesEvents(w.db, db, added);
    LinksKept(w.db, db, w.payloads, w.payloads, w.links, added, {});
    PayloadsKept(w.db, db, w.payloads);
    MessagesKept(w.db, db, added, {}, w.links, links, w.dispatches, w.tasks);
    AnnouncedKept(w.db.events, db.events, w.payloads, w.payloads, w.remote, w.announced);
    BegunKept(w.db, db, w.payloads, w.remote, w.begun, w.links, w.announced, added);
    BuiltKept(w.db, db, added, w.remote, w.begun, w.built);
    WorkersKept(w.db, db, added, {}, w.remote, w.links, links, w.begun, w.begun, w.workers);
  }

  lemma AddedKnown(db: State, payloads: map<DeliveryKey, Payload>, links: set<(Id, Id)>, added: set<(Id, Id)>)
    requires added <= links
    ensures AddedOk(db, payloads, links, added)
  {
  }

  lemma EvolvesEvents(s: State, s': State, added: set<(Id, Id)>)
    requires Evolves(s, s', added, {})
    ensures EventsKept(s.events, s'.events)
  {
  }

  // ---- starting and completing a run -----------------------------------------------------

  lemma CarryStart(w: World, r: Id, now: Time)
    requires Sound(w) && Startable(w.db, r)
    ensures var db := MarkRunning(w.db, r, now);
      && Sound(Commit(w, db).(begun := w.begun[r := |Heads(w, w.db.runs[r].ref)|]))
      && Started(db.runs, w.begun[r := |Heads(w, w.db.runs[r].ref)|], r)
  {
    hide Inv, Evolves, LinksSound, LinksCover, MessagesSound, AnnouncedSound, BegunSound, BuiltSound, WorkersSound,
      PayloadsSound, MarkRunning, HeadsOf;
    var db := MarkRunning(w.db, r, now);
    var links := w.links + Links(db);
    var begun := w.begun[r := |Heads(w, w.db.runs[r].ref)|];
    RunningKeeps(w.db, r, now);
    RunningEvolves(w.db, r, now);
    RunningEffect(w.db, r, now);
    AddedKnown(db, w.payloads, w.links, {});
    KeysOf(db);
    LinksKept(w.db, db, w.payloads, w.payloads, w.links, {}, {r});
    MessagesKept(w.db, db, {}, {r}, w.links, links, w.dispatches, w.tasks);
    NotBegun(w, r);
    BegunStart(w, db, r, links, begun);
    BuiltStart(w, db, r, begun);
    WorkersKept(w.db, db, {}, {r}, w.remote, w.links, links, w.begun, begun, w.workers);
  }

  lemma RunningEffect(s: State, r: Id, now: Time)
    requires Startable(s, r)
    ensures var s' := MarkRunning(s, r, now);
      && s'.events == s.events && s'.runs == s.runs[r := s'.runs[r]] && s'.runs[r].status.Running?
      && s'.runs[r].ref == s.runs[r].ref
  {
  }

  lemma NotBegun(w: World, r: Id)
    requires BegunSound(w.db.runs, w.remote, w.begun, w.links, w.announced)
    requires r in w.db.runs ==> StatusRank(w.db.runs[r].status) <= 1
    ensures r !in w.begun
  {
  }

  lemma BegunStart(w: World, db: State, r: Id, links: set<(Id, Id)>, begun: map<Id, nat>)
    requires BegunSound(w.db.runs, w.remote, w.begun, w.links, w.announced) && LinksCover(w.db, w.links)
    requires LinksSound(db, w.payloads, links) && AnnouncedSound(w.db.events, w.payloads, w.remote, w.announced)
    requires r in w.db.runs && db.events == w.db.events && r in db.runs && db.runs == w.db.runs[r := db.runs[r]]
    requires db.runs[r].status.Running? && db.runs[r].ref == w.db.runs[r].ref
    requires links == w.links + Links(db) && begun == w.begun[r := |Heads(w, db.runs[r].ref)|]
    ensures BegunSound(db.runs, w.remote, begun, links, w.announced)
  {
    hide HeadsOf, RequestedRef;
    forall e, q | (e, q) in links && q in begun && e in w.announced ensures w.announced[e] < begun[q] {
      if q == r {
        assert AsksFor(db.events, w.payloads, e, db.runs[r].ref);
      } else {
        assert (e, q) in w.links;
      }
    }
  }

  lemma BuiltStart(w: World, db: State, r: Id, begun: map<Id, nat>)
    requires BuiltSound(w.db.runs, w.remote, w.begun, w.built) && r !in w.begun && Grows(w.begun, begun)
    requires r in db.runs && db.runs == w.db.runs[r := db.runs[r]] && db.runs[r].status.Running?
    ensures BuiltSound(db.runs, w.remote, begun, w.built)
  {
    hide HeadsOf;
  }

  lemma CarryCommit(w: World, r: Id, scope: Id, version: nat, commit: Sha, x: Id, now: Time)
    requires Sound(w) && CommitOutcomeOf(w.db, r, scope) == Committed && x !in w.db.issued
    requires ResolvedOk(w.db.runs, w.remote, w.begun, r, version, commit)
    ensures var db := CommitSnapshot(w.db, r, scope, commit, x, now);
      && Sound(Commit(w, db).(built := w.built[r := version])) && x in db.snapshots && db.snapshots[x].run == r
  {
    hide Inv, Evolves, LinksSound, LinksCover, MessagesSound, AnnouncedSound, BegunSound, BuiltSound, WorkersSound,
      PayloadsSound, CommitSnapshot, HeadsOf, ResolvedOk;
    var db := CommitSnapshot(w.db, r, scope, commit, x, now);
    var links := w.links + Links(db);
    CommitKeeps(w.db, r, scope, commit, x, now);
    SnapshotsOf(w.db);
    KeysOf(w.db);
    CommitEvolves(w.db, r, scope, commit, x, now);
    CommitEffect(w.db, r, scope, commit, x, now);
    AddedKnown(db, w.payloads, w.links, {});
    KeysOf(db);
    LinksKept(w.db, db, w.payloads, w.payloads, w.links, {}, {r});
    MessagesKept(w.db, db, {}, {r}, w.links, links, w.dispatches, w.tasks);
    SameLinks(w, db);
    BegunCommit(w, db, r, version, commit);
    BuiltCommit(w, db, r, version, commit);
    WorkersKept(w.db, db, {}, {r}, w.remote, w.links, links, w.begun, w.begun, w.workers);
  }

  lemma SnapshotsOf(s: State)
    requires Inv(s)
    ensures SnapshotsSound(s.runs, s.snapshots)
  {
  }

  lemma CommitEffect(s: State, r: Id, scope: Id, commit: Sha, x: Id, now: Time)
    requires CommitOutcomeOf(s, r, scope) == Committed
    ensures var s' := CommitSnapshot(s, r, scope, commit, x, now);
      && s'.events == s.events && r in s.runs && s'.runs == s.runs[r := s'.runs[r]] && s'.runs[r].status.Succeeded?
      && s'.runs[r].ref == s.runs[r].ref && s'.runs[r].resolved == Some(commit)
      && s'.snapshots == s.snapshots[x := Snapshot(r, scope, commit)]
  {
  }

  lemma SameLinks(w: World, db: State)
    requires LinksCover(w.db, w.links) && db.events == w.db.events
    ensures w.links + Links(db) == w.links
  {
  }

  lemma BegunCommit(w: World, db: State, r: Id, version: nat, commit: Sha)
    requires BegunSound(w.db.runs, w.remote, w.begun, w.links, w.announced)
    requires ResolvedOk(w.db.runs, w.remote, w.begun, r, version, commit)
    requires r in db.runs && db.runs == w.db.runs[r := db.runs[r]] && db.runs[r].status.Succeeded?
    requires db.runs[r].ref == w.db.runs[r].ref
    ensures BegunSound(db.runs, w.remote, w.begun, w.links, w.announced)
  {
    hide HeadsOf;
  }

  lemma BuiltCommit(w: World, db: State, r: Id, version: nat, commit: Sha)
    requires BuiltSound(w.db.runs, w.remote, w.begun, w.built)
    requires ResolvedOk(w.db.runs, w.remote, w.begun, r, version, commit)
    requires r in db.runs && db.runs == w.db.runs[r := db.runs[r]] && db.runs[r].resolved == Some(commit)
    requires db.runs[r].ref == w.db.runs[r].ref
    ensures BuiltSound(db.runs, w.remote, w.begun, w.built[r := version])
  {
    hide HeadsOf;
  }

  // ---- deliveries ------------------------------------------------------------------------

  lemma DeliveryAdmissible(w: World, a: Arrival, version: Option<nat>)
    requires Sound(w) && CanDeliver(w, a, version)
    ensures Admissible(w.db, a) && SamePayload(w.db, a) && Grows(w.payloads, w.payloads[a.payload.key := a.payload])
  {
    hide Inv, LinksSound, LinksCover, MessagesSound, AnnouncedSound, BegunSound, BuiltSound, WorkersSound, HeadsOf;
    KeysOf(w.db);
    var key := a.payload.key;
    if Known(w.db, key).Some? {
      assert PayloadOf(w.db.events, w.payloads, w.db.deliveries[key]);
    }
  }

  lemma PayloadsDelivered(s: State, a: Arrival, p: Processed, payloads: map<DeliveryKey, Payload>)
    requires PayloadsSound(s.events, payloads) && EventsKept(s.events, p.state.events) && WellShaped(s.events, a, p)
    requires Grows(payloads, payloads[a.payload.key := a.payload])
    ensures PayloadsSound(p.state.events, payloads[a.payload.key := a.payload])
  {
    var payloads' := payloads[a.payload.key := a.payload];
    forall e | e in p.state.events ensures PayloadOf(p.state.events, payloads', e) {
      if e in s.events { assert PayloadOf(s.events, payloads, e); }
    }
  }

  lemma DeliveredLinkOk(s: State, a: Arrival, payloads': map<DeliveryKey, Payload>, links: set<(Id, Id)>)
    requires Inv(s) && Admissible(s, a) && SamePayload(s, a)
    requires a.payload.key in payloads' && payloads'[a.payload.key] == a.payload
    ensures var p := Process(s, a); AddedOk(p.state, payloads', links, LinkOf(p))
  {
    hide Inv, Process, Evolves;
    ProcessShape(s, a);
    ProcessEvolves(s, a);
  }

  lemma AnnouncedDelivered(
    w: World, a: Arrival, version: Option<nat>, events': map<Id, Event>, payloads': map<DeliveryKey, Payload>, e: Id)
    requires CanDeliver(w, a, version) && version.Some?
    requires AnnouncedSound(events', payloads', w.remote, w.announced)
    requires e in events' && events'[e].delivery == a.payload.key && events'[e].head == a.payload.head
    requires a.payload.key in payloads' && payloads'[a.payload.key] == a.payload
    ensures AnnouncedSound(events', payloads', w.remote, w.announced[e := version.value])
  {
    hide HeadsOf, RequestedRef;
  }

  /** A new event is linked to no run that has begun. */
  lemma BegunDelivered(
    s: State, s': State, payloads': map<DeliveryKey, Payload>, remote: map<Ref, seq<Sha>>, begun: map<Id, nat>,
    payloads: map<DeliveryKey, Payload>, links: set<(Id, Id)>, announced: map<Id, nat>, added: set<(Id, Id)>,
      e: Id, v: nat)
    requires BegunSound(s'.runs, remote, begun, links + Links(s'), announced)
    requires LinksSound(s, payloads, links) && LinksCover(s, links) && e !in s.events
    requires Evolves(s, s', added, {}) && AddedOk(s', payloads', links, added)
    ensures BegunSound(s'.runs, remote, begun, links + Links(s'), announced[e := v])
  {
    hide EventsKept, SnapshotsKept, LinkStep, TriggerStep, AsksFor, HeadsOf, RunsForward, StatusStep;
    forall d, r | (d, r) in links + Links(s') && r in begun && d in announced[e := v]
      ensures announced[e := v][d] < begun[r]
    {
      if d == e {
        assert (d, r) !in links;
        LinkOrigin(s, s', payloads', links, added, {}, d, r);
        assert false;
      }
    }
  }

  lemma DispatchAdded(
    s: State, links: set<(Id, Id)>, dispatches: set<(Id, Id)>, tasks: set<Task>, e: Id, r: Id)
    requires MessagesSound(s, links, dispatches, tasks) && (e, r) in links && Dispatchable(s, r)
    ensures MessagesSound(s, links, dispatches + {(e, r)}, tasks)
  {
  }

  lemma DeliveredSound(w: World, a: Arrival, version: Option<nat>)
    requires Sound(w) && CanDeliver(w, a, version)
    ensures Sound(Delivered(w, a))
  {
    hide Inv, Evolves, LinksSound, LinksCover, MessagesSound, AnnouncedSound, BegunSound, BuiltSound, WorkersSound,
      PayloadsSound, AddedOk, Process, WellShaped, CanDeliver, EventOf, SamePayload, Admissible, Indexes;
    DeliveryAdmissible(w, a, version);
    KeysOf(w.db);
    var p := Process(w.db, a);
    var db, added := p.state, LinkOf(p);
    var payloads' := w.payloads[a.payload.key := a.payload];
    var links := w.links + Links(db);
    ProcessKeeps(w.db, a);
    ProcessShape(w.db, a);
    ProcessEvolves(w.db, a);
    EvolvesEvents(w.db, db, added);
    DeliveredLinkOk(w.db, a, payloads', w.links);
    KeysOf(db);
    LinksKept(w.db, db, w.payloads, payloads', w.links, added, {});
    PayloadsDelivered(w.db, a, p, w.payloads);
    MessagesKept(w.db, db, added, {}, w.links, links, w.dispatches, w.tasks);
    AnnouncedKept(w.db.events, db.events, w.payloads, payloads', w.remote, w.announced);
    BegunKept(w.db, db, payloads', w.remote, w.begun, w.links, w.announced, added);
    BuiltKept(w.db, db, added, w.remote, w.begun, w.built);
    WorkersKept(w.db, db, added, {}, w.remote, w.links, links, w.begun, w.begun, w.workers);
  }

  lemma AnnouncedStillSound(w: World, a: Arrival, version: Option<nat>)
    requires Sound(w) && CanDeliver(w, a, version) && Known(w.db, a.payload.key).None? && version.Some?
    ensures var w1 := Delivered(w, a);
      Sound(w1.(announced := w.announced[Process(w.db, a).event := version.value]))
  {
    hide Inv, Evolves, LinksSound, LinksCover, MessagesSound, AnnouncedSound, BegunSound, BuiltSound, WorkersSound,
      PayloadsSound, AddedOk, Process, WellShaped, CanDeliver, EventOf, SamePayload, Admissible, Indexes;
    DeliveredSound(w, a, version);
    DeliveryAdmissible(w, a, version);
    KeysOf(w.db);
    var p := Process(w.db, a);
    var payloads' := w.payloads[a.payload.key := a.payload];
    ProcessShape(w.db, a);
    ProcessEvolves(w.db, a);
    DeliveredLinkOk(w.db, a, payloads', w.links);
    DeliveredRow(w.db, a, p);
    AnnouncedDelivered(w, a, version, p.state.events, payloads', p.event);
    NewEventIsNew(w, a);
    BegunDelivered(w.db, p.state, payloads', w.remote, w.begun, w.payloads, w.links, w.announced, LinkOf(p), p.event,
                   version.value);
  }

  lemma AnnouncedWorldSound(w: World, a: Arrival, version: Option<nat>)
    requires Sound(w) && CanDeliver(w, a, version)
    ensures Sound(Announced(w, a, version)) && Announced(w, a, version).db == Process(w.db, a).state
  {
    hide Sound, Inv, Process, CanDeliver, Links;
    InvOf(w);
    DeliveredSound(w, a, version);
    if Known(w.db, a.payload.key).None? && version.Some? { AnnouncedStillSound(w, a, version); }
  }

  lemma ClockFree(w: World, clock: Time)
    requires Sound(w)
    ensures Sound(w.(clock := clock))
  {
  }

  lemma InvOf(w: World)
    requires Sound(w)
    ensures Inv(w.db) && Indexed(w.db)
  {
  }

  lemma AddDispatch(w: World, s: State, a: Arrival, p: Processed)
    requires Sound(w) && p.state == w.db && WellShaped(s.events, a, p) && p.enqueue
    ensures Sound(w.(dispatches := w.dispatches + {(p.dispatchEvent.value, p.run.value)}))
  {
    hide LinksSound, AnnouncedSound, BegunSound, BuiltSound, WorkersSound, PayloadsSound;
    KeysOf(w.db);
    hide Inv;
    DispatchAdded(w.db, w.links, w.dispatches, w.tasks, p.dispatchEvent.value, p.run.value);
  }

  lemma CarryDelivery(w: World, a: Arrival, version: Option<nat>)
    requires Sound(w) && CanDeliver(w, a, version)
    ensures Sound(AfterDelivery(w, a, version))
  {
    hide Sound, Inv, Process, CanDeliver, Announced, WellShaped, Admissible, SamePayload, Indexes;
    InvOf(w);
    DeliveryAdmissible(w, a, version);
    AnnouncedWorldSound(w, a, version);
    ProcessShape(w.db, a);
    var p := Process(w.db, a);
    var w1 := Announced(w, a, version).(clock := a.clock.dispatch);
    ClockFree(Announced(w, a, version), a.clock.dispatch);
    if p.enqueue && p.dispatchEvent.Some? && p.run.Some? { AddDispatch(w1, w.db, a, p); }
  }

  lemma DeliveredRow(s: State, a: Arrival, p: Processed)
    requires WellShaped(s.events, a, p)
    ensures p.event in p.state.events && p.state.events[p.event].delivery == a.payload.key
      && p.state.events[p.event].head == a.payload.head
  {
  }

  lemma NewEventIsNew(w: World, a: Arrival)
    requires Inv(w.db) && Admissible(w.db, a) && Known(w.db, a.payload.key).None?
    ensures EventOf(w.db, a) !in w.db.events
  {
  }
}
