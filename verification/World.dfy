/** The protocol as a state machine. One step is one database transaction of some route or worker,
    a push to the remote, or a worker's read of the remote; steps of all of them interleave freely.
    Queue messages may be consumed any number of times, at any time after their send was tried. */
module World {
  import opened Model
  import opened Deciding
  import opened Transactions

  datatype Task = WebhookTask(event: Id, run: Id) | ManualTask(run: Id)

  /** Where a worker stands between two transactions. `version` is the index, in the ref's push
      history, of the head the build resolved. */
  datatype Phase =
    | Received
    | Building(resume: bool, retries: nat)
    | Starting(retries: nat)
    | Resolving(retries: nat)
    | Scoping(retries: nat, version: nat, commit: Sha)
    | Reading(retries: nat, version: nat, commit: Sha, scope: Id)
    | Committing(retries: nat, version: nat, commit: Sha, scope: Id)
    | EmptyResult(retries: nat, scope: Id)
    | FailingBuild(code: FailureCode)
    | LoadingExisting
    | Built(snapshot: Id)
    | Failing
    | FollowingUp
    | Sending(next: Id, message: Task)
    | DispatchFailing(next: Id)
    | Done

  datatype Worker = Worker(task: Task, phase: Phase)

  /** `announced`: the version of the head an event's first delivery announced. `links`: every
      (event, run) link ever stored. `begun`: how many versions the ref had when a run started.
      `built`: the version a succeeded run captured. `dispatches`: what deliveries asked to enqueue. */
  datatype World = World(
    db: State, clock: Time, queueConfigured: bool,
    payloads: map<DeliveryKey, Payload>, remote: map<Ref, seq<Sha>>, announced: map<Id, nat>,
    links: set<(Id, Id)>, begun: map<Id, nat>, built: map<Id, nat>,
    dispatches: set<(Id, Id)>, tasks: set<Task>, manual: set<Id>, workers: map<Id, Worker>)

  datatype Outcome = Ok | Empty | Error(code: FailureCode)
  datatype Choice = Choice(clock: FollowUpClock, newId: Id, code: FailureCode, outcome: Outcome)

  datatype Step =
    | Push(ref: Ref, head: Sha)
    | Deliver(arrival: Arrival, version: Option<nat>)
    | Refuse(key: DeliveryKey, newEvent: Id, at: Time)
    | ClaimDispatch(event: Id, run: Id, at: Time)
    | EnqueueFailure(event: Id, run: Id, at: Time)
    | RequestManual(ref: Ref, origin: Origin, newRun: Id, at: Time)
    | WithdrawManual(run: Id)
    | SaveScopeRules(conn: Id, newScope: Id)
    | Take(worker: Id, task: Task)
    | Work(worker: Id, choice: Choice)

  predicate Initial(w: World) {
    && w.db == EMPTY && w.payloads == map[] && w.announced == map[] && w.links == {} && w.begun == map[]
    && w.built == map[] && w.dispatches == {} && w.tasks == {} && w.manual == {} && w.workers == map[]
  }

  function HeadsOf(remote: map<Ref, seq<Sha>>, ref: Ref): seq<Sha> { if ref in remote then remote[ref] else [] }

  function Heads(w: World, ref: Ref): seq<Sha> { HeadsOf(w.remote, ref) }

  /** A delivery reads a forward clock, draws new ids and repeats the payload of its delivery id; a
      version it announces is one the remote really had. */
  predicate CanDeliver(w: World, a: Arrival, version: Option<nat>) {
    && w.clock <= a.clock.now <= a.clock.retry <= a.clock.dispatch
    && a.newEvent !in w.db.issued && a.newRun !in w.db.issued && a.newEvent != a.newRun
    && (a.payload.key in w.payloads ==> w.payloads[a.payload.key] == a.payload)
    && (a.payload.request.Some? ==> !IsManual(a.payload.request.value.origin))
    && (version.Some? ==>
          && a.payload.request.Some? && a.payload.head.Some?
          && var heads := Heads(w, RequestedRef(a.payload));
          && version.value < |heads| && heads[version.value] == a.payload.head.value)
  }

  /** A live worker reads a forward clock, and draws a new id. */
  predicate CanWork(w: World, k: Id, c: Choice) {
    && k in w.workers && !w.workers[k].phase.Done? && c.newId !in w.db.issued
    && w.clock <= c.clock.check <= c.clock.release <= c.clock.enqueue <= c.clock.stale
  }

  /** A dispatch that a delivery asked for may be recorded as failed whether or not it was claimed: the route
      does so without a claim when no queue is configured, and when the claim itself raises. */
  predicate Enabled(w: World, st: Step) {
    match st
    case Push(_, _) => true
    case Deliver(a, version) => CanDeliver(w, a, version)
    case Refuse(_, newEvent, at) => newEvent !in w.db.issued && w.clock <= at
    case ClaimDispatch(e, r, at) => (e, r) in w.dispatches && w.clock <= at
    case EnqueueFailure(e, r, at) => (e, r) in w.dispatches && w.clock <= at
    case RequestManual(_, origin, r, at) => IsManual(origin) && r !in w.db.issued && w.clock <= at
    case WithdrawManual(r) => r in w.manual
    case SaveScopeRules(_, newScope) => newScope !in w.db.issued
    case Take(k, task) => k !in w.workers && task in w.tasks
    case Work(k, c) => CanWork(w, k, c)
  }

  // ---- worker transactions ---------------------------------------------------------------

  predicate RunningStale(run: Run, at: Time) { at - run.startedAt > RETRY_AFTER }

  function TaskEvent(task: Task): Option<Id> { if task.WebhookTask? then Some(task.event) else None }

  function TaskFor(db: State, r: Id): Task
    requires r in db.runs
  {
    if IsManual(db.runs[r].origin) || db.runs[r].trigger.None? then ManualTask(r)
    else WebhookTask(db.runs[r].trigger.value, r)
  }

  function ConnOf(db: State, r: Id): Id { if r in db.runs then db.runs[r].ref.conn else 0 }

  /** The database after a worker's transaction. */
  ghost function DbAfter(db: State, queueConfigured: bool, k: Worker, c: Choice): State {
    var r := k.task.run;
    var now := c.clock.check;
    match k.phase
    case Starting(_) => if c.outcome.Error? then db else MarkRunning(db, r, now)
    case Scoping(_, _, _) => if c.outcome.Error? then db else EnsureScope(db, ConnOf(db, r), c.newId)
    case Committing(_, _, commit, scope) =>
      if c.outcome.Error? then db else CommitSnapshot(db, r, scope, commit, c.newId, now)
    case EmptyResult(_, scope) => if c.outcome.Error? then db else FailEmpty(db, r, ConnOf(db, r), scope, now)
    case FailingBuild(code) => if c.outcome.Error? then db else MarkFailed(db, r, code, now)
    case Built(x) =>
      if c.outcome.Error? || k.task.ManualTask? then db else CompleteEvent(db, k.task.event, r, x)
    case Failing =>
      if c.outcome.Error? then db
      else if k.task.ManualTask? then FailManual(db, r, c.code, now)
      else FailWebhook(db, k.task.event, r, now)
    case FollowingUp =>
      if c.outcome.Error? || !queueConfigured then db else FollowUp(db, r, TaskEvent(k.task), c.clock).0
    case DispatchFailing(next) => if c.outcome.Error? then db else DispatchFailed(db, next, now)
    case _ => db
  }

  /** Where the worker stands afterwards. */
  ghost function PhaseAfter(w: World, k: Worker, c: Choice): Phase {
    var db := w.db;
    var r := k.task.run;
    var now := c.clock.check;
    match k.phase
    case Received =>
      if k.task.ManualTask? then Building(false, 1)
      else if c.outcome.Error? then Failing
      else if r in db.runs && db.runs[r].status.Running? then
        if RunningStale(db.runs[r], now) then Building(true, 1) else Done
      else Building(false, 1)
    case Building(resume, retries) =>
      if c.outcome.Error? || r !in db.runs then Failing
      else if db.runs[r].status.Succeeded? then LoadingExisting
      else if db.runs[r].status.Running? && resume then Resolving(retries)
      else if db.runs[r].status.Pending? then Starting(retries)
      else Failing
    case Starting(retries) => if c.outcome.Error? || !Startable(db, r) then Failing else Resolving(retries)
    case Resolving(retries) =>
      (match c.outcome
       case Error(code) => FailingBuild(code)
       case _ =>
         if r !in db.runs || |Heads(w, db.runs[r].ref)| == 0 then FailingBuild(RefNotFound)
         else var heads := Heads(w, db.runs[r].ref); Scoping(retries, |heads| - 1, heads[|heads| - 1]))
    case Scoping(retries, version, commit) =>
      (match c.outcome
       case Error(code) => FailingBuild(code)
       case _ => var db' := EnsureScope(db, ConnOf(db, r), c.newId);
                 Reading(retries, version, commit, db'.scopes[ConnOf(db, r)]))
    case Reading(retries, version, commit, scope) =>
      (match c.outcome
       case Error(code) => FailingBuild(code)
       case Empty => EmptyResult(retries, scope)
       case Ok => Committing(retries, version, commit, scope))
    case Committing(retries, _, _, scope) =>
      if c.outcome.Error? then FailingBuild(SnapshotWriteFailed)
      else
        (match CommitOutcomeOf(db, r, scope)
         case Committed => Built(c.newId)
         case ScopeChanged => if retries > 0 then Building(true, retries - 1) else FailingBuild(MirrorSyncFailed)
         case Conflict => LoadingExisting)
    case EmptyResult(retries, scope) =>
      if !c.outcome.Error? && !ScopeStillActive(db, ConnOf(db, r), scope) && retries > 0
      then Building(true, retries - 1) else Failing
    case FailingBuild(_) => Failing
    case LoadingExisting =>
      if c.outcome.Error? || SnapshotOf(db.snapshots, r).None? then Failing else Built(SnapshotOf(db.snapshots, r).value)
    case Built(_) => if c.outcome.Error? && k.task.WebhookTask? then Failing else FollowingUp
    case Failing => if c.outcome.Error? && k.task.WebhookTask? then Done else FollowingUp
    case FollowingUp =>
      var (db', next) := FollowUp(db, r, TaskEvent(k.task), c.clock);
      if c.outcome.Error? || !w.queueConfigured || next.None? then Done
      else Sending(next.value, TaskFor(db', next.value))
    case Sending(next, _) => if c.outcome.Error? then DispatchFailing(next) else Done
    case DispatchFailing(_) => Done
    case Done => Done
  }

  // ---- one step --------------------------------------------------------------------------

  ghost function Links(db: State): set<(Id, Id)> {
    set e | e in db.events && db.events[e].run.Some? :: (e, db.events[e].run.value)
  }

  /** The world after a transaction that changes nothing but the database and its link history. */
  ghost function Commit(w: World, db: State): World { w.(db := db, links := w.links + Links(db)) }

  /** A delivery's transaction, */
  ghost function Delivered(w: World, a: Arrival): World {
    Commit(w, Process(w.db, a).state).(payloads := w.payloads[a.payload.key := a.payload])
  }

  /** with the version a new event announces noted, */
  ghost function Announced(w: World, a: Arrival, version: Option<nat>): World {
    if Known(w.db, a.payload.key).None? && version.Some? then
      Delivered(w, a).(announced := w.announced[Process(w.db, a).event := version.value])
    else Delivered(w, a)
  }

  /** and what it asks to enqueue. */
  ghost function AfterDelivery(w: World, a: Arrival, version: Option<nat>): World {
    var p := Process(w.db, a);
    var w1 := Announced(w, a, version).(clock := a.clock.dispatch);
    if p.enqueue && p.dispatchEvent.Some? && p.run.Some? then
      w1.(dispatches := w1.dispatches + {(p.dispatchEvent.value, p.run.value)})
    else w1
  }

  /** A worker's transaction; a start notes how far the remote had got, a commit what it captured. */
  ghost function Transacted(w: World, id: Id, c: Choice): World
    requires id in w.workers
  {
    var k := w.workers[id];
    var r := k.task.run;
    var w1 := Commit(w, DbAfter(w.db, w.queueConfigured, k, c)).(clock := c.clock.stale);
    if k.phase.Starting? && !c.outcome.Error? && Startable(w.db, r) then
      w1.(begun := w.begun[r := |Heads(w, w.db.runs[r].ref)|])
    else if k.phase.Committing? && !c.outcome.Error? && CommitOutcomeOf(w.db, r, k.phase.scope) == Committed then
      w1.(built := w.built[r := k.phase.version])
    else w1
  }

  ghost function AfterWork(w: World, id: Id, c: Choice): World
    requires id in w.workers
  {
    var k := w.workers[id];
    Transacted(w, id, c).(
      workers := w.workers[id := k.(phase := PhaseAfter(w, k, c))],
      tasks := if k.phase.Sending? then w.tasks + {k.phase.message} else w.tasks)
  }

  ghost function Next(w: World, st: Step): World
    requires Enabled(w, st)
  {
    match st
    case Push(ref, head) => w.(remote := w.remote[ref := Heads(w, ref) + [head]])
    case Deliver(a, version) => AfterDelivery(w, a, version)
    case Refuse(key, newEvent, at) => Commit(w, Reject(w.db, key, newEvent, at)).(clock := at)
    case ClaimDispatch(e, r, at) =>
      if Claimable(w.db, r, at - RETRY_AFTER) then
        Commit(w, Claim(w.db, r, at, at - RETRY_AFTER)).(clock := at).(tasks := w.tasks + {WebhookTask(e, r)})
      else w.(clock := at)
    case EnqueueFailure(e, r, at) => Commit(w, EnqueueFailed(w.db, e, r)).(clock := at)
    case RequestManual(ref, origin, r, at) =>
      if ManualAllowed(w.db, ref) then
        Commit(w, CreateManual(w.db, ref, origin, r, at)).(clock := at).(
          tasks := w.tasks + {ManualTask(r)}, manual := w.manual + {r})
      else w.(clock := at)
    case WithdrawManual(r) => Commit(w, CancelManual(w.db, r)).(clock := w.clock)
    case SaveScopeRules(conn, newScope) => Commit(w, SaveScope(w.db, conn, newScope)).(clock := w.clock)
    case Take(k, task) => w.(workers := w.workers[k := Worker(task, Phase.Received)])
    case Work(k, c) => AfterWork(w, k, c)
  }

  /** A run of the state machine: `ws[i]` is the world before step `i`. */
  ghost predicate Execution(ws: seq<World>, steps: seq<Step>) {
    && |ws| == |steps| + 1 && Initial(ws[0])
    && forall i :: 0 <= i < |steps| ==> Enabled(ws[i], steps[i]) && ws[i + 1] == Next(ws[i], steps[i])
  }
}
