/** The invariant of every run of the state machine. */
module Reachable {
  import opened Model
  import opened Deciding
  import opened Invariant
  import opened World

  // ---- payloads and links ----------------------------------------------------------------

  ghost predicate PayloadOf(events: map<Id, Event>, payloads: map<DeliveryKey, Payload>, e: Id)
    requires e in events
  {
    var ev := events[e];
    && ev.delivery in payloads
    && var p := payloads[ev.delivery];
    && p.key == ev.delivery && p.targetKey == ev.targetKey && p.head == ev.head
  }

  ghost predicate PayloadsSound(events: map<Id, Event>, payloads: map<DeliveryKey, Payload>) {
    forall e :: e in events ==> PayloadOf(events, payloads, e)
  }

  /** The delivery stored as `e` asks for a sync of `ref`. */
  ghost predicate AsksFor(events: map<Id, Event>, payloads: map<DeliveryKey, Payload>, e: Id, ref: Ref) {
    && e in events && events[e].delivery in payloads
    && payloads[events[e].delivery].request.Some? && RequestedRef(payloads[events[e].delivery]) == ref
  }

  /** Every link there ever was joins a stored event to an issued run of the event's own ref. */
  ghost predicate LinksSound(s: State, payloads: map<DeliveryKey, Payload>, links: set<(Id, Id)>) {
    forall e, r :: (e, r) in links ==>
      e in s.events && r in s.issued && (r in s.runs ==> AsksFor(s.events, payloads, e, s.runs[r].ref))
  }

  ghost predicate LinksCover(s: State, links: set<(Id, Id)>) {
    && (forall e :: e in s.events && s.events[e].run.Some? ==> (e, s.events[e].run.value) in links)
    && (forall r :: r in s.runs && s.runs[r].trigger.Some? ==> (s.runs[r].trigger.value, r) in links)
  }

  // ---- queue messages --------------------------------------------------------------------

  ghost predicate Dispatchable(s: State, r: Id) {
    r in s.issued && (r in s.runs ==> !s.runs[r].status.Blocked?)
  }

  ghost predicate TaskSound(s: State, links: set<(Id, Id)>, t: Task) {
    Dispatchable(s, t.run) && (t.WebhookTask? ==> (t.event, t.run) in links)
  }

  ghost predicate MessagesSound(s: State, links: set<(Id, Id)>, dispatches: set<(Id, Id)>, tasks: set<Task>) {
    && (forall e, r :: (e, r) in dispatches ==> (e, r) in links && Dispatchable(s, r))
    && (forall t :: t in tasks ==> TaskSound(s, links, t))
  }

  // ---- versions --------------------------------------------------------------------------

  /** The announced version of `e` was a head of the ref `e` asks for, and is the head `e` carries. */
  ghost predicate AnnouncedSound(
    events: map<Id, Event>, payloads: map<DeliveryKey, Payload>, remote: map<Ref, seq<Sha>>, announced: map<Id, nat>)
  {
    forall e :: e in announced ==>
      && e in events && events[e].delivery in payloads && payloads[events[e].delivery].request.Some?
      && var heads := HeadsOf(remote, RequestedRef(payloads[events[e].delivery]));
      && announced[e] < |heads| && events[e].head == Some(heads[announced[e]])
  }

  /** A run began after every version announced by an event linked to it. */
  ghost predicate BegunSound(
    runs: map<Id, Run>, remote: map<Ref, seq<Sha>>, begun: map<Id, nat>, links: set<(Id, Id)>, announced: map<Id, nat>)
  {
    && (forall r :: r in begun ==>
          r in runs && StatusRank(runs[r].status) >= 2 && begun[r] <= |HeadsOf(remote, runs[r].ref)|)
    && (forall r :: r in runs && (runs[r].status.Running? || runs[r].status.Succeeded?) ==> r in begun)
    && (forall e, r :: (e, r) in links && r in begun && e in announced ==> announced[e] < begun[r])
  }

  ghost predicate BuiltSound(
    runs: map<Id, Run>, remote: map<Ref, seq<Sha>>, begun: map<Id, nat>, built: map<Id, nat>)
  {
    forall r :: r in runs && runs[r].status.Succeeded? ==>
      && r in begun && r in built && begun[r] <= built[r] + 1
      && var heads := HeadsOf(remote, runs[r].ref);
      && built[r] < |heads| && runs[r].resolved == Some(heads[built[r]])
  }

  // ---- workers ---------------------------------------------------------------------------

  ghost predicate Started(runs: map<Id, Run>, begun: map<Id, nat>, r: Id) {
    r in runs && StatusRank(runs[r].status) >= 2 && r in begun
  }

  /** The build resolved a version that is no older than the run's start. */
  ghost predicate ResolvedOk(
    runs: map<Id, Run>, remote: map<Ref, seq<Sha>>, begun: map<Id, nat>, r: Id, version: nat, commit: Sha)
  {
    && Started(runs, begun, r)
    && var heads := HeadsOf(remote, runs[r].ref);
    && version < |heads| && heads[version] == commit && begun[r] <= version + 1
  }

  ghost predicate PhaseSound(
    s: State, remote: map<Ref, seq<Sha>>, links: set<(Id, Id)>, begun: map<Id, nat>, r: Id, phase: Phase)
  {
    match phase
    case Resolving(_) => Started(s.runs, begun, r)
    case EmptyResult(_, _) => Started(s.runs, begun, r)
    case FailingBuild(_) => Started(s.runs, begun, r)
    case Scoping(_, version, commit) => ResolvedOk(s.runs, remote, begun, r, version, commit)
    case Reading(_, version, commit, _) => ResolvedOk(s.runs, remote, begun, r, version, commit)
    case Committing(_, version, commit, _) => ResolvedOk(s.runs, remote, begun, r, version, commit)
    case LoadingExisting => r in s.runs && s.runs[r].status.Succeeded?
    case Built(x) => x in s.snapshots && s.snapshots[x].run == r
    case Sending(next, message) => message.run == next && TaskSound(s, links, message)
    case DispatchFailing(next) => Dispatchable(s, next)
    case _ => true
  }

  ghost predicate WorkersSound(
    s: State, remote: map<Ref, seq<Sha>>, links: set<(Id, Id)>, begun: map<Id, nat>, workers: map<Id, Worker>)
  {
    forall k :: k in workers ==>
      TaskSound(s, links, workers[k].task) && PhaseSound(s, remote, links, begun, workers[k].task.run, workers[k].phase)
  }

  ghost predicate Sound(w: World) {
    && Inv(w.db)
    && PayloadsSound(w.db.events, w.payloads) && LinksSound(w.db, w.payloads, w.links) && LinksCover(w.db, w.links)
    && MessagesSound(w.db, w.links, w.dispatches, w.tasks)
    && AnnouncedSound(w.db.events, w.payloads, w.remote, w.announced)
    && BegunSound(w.db.runs, w.remote, w.begun, w.links, w.announced)
    && BuiltSound(w.db.runs, w.remote, w.begun, w.built)
    && WorkersSound(w.db, w.remote, w.links, w.begun, w.workers)
  }

  lemma InitiallySound(w: World)
    requires Initial(w)
    ensures Sound(w)
  {
  }
}
