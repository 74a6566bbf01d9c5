/** Runs of the protocol in which a follow-up is stranded or lost. */
module Witnesses {
  import opened Model
  import opened Deciding
  import opened Transactions
  import Effects
  import opened World
  import opened Reachable
  import Safety
  import opened FollowUps
  import opened DistinctDeliveries
  import opened Released
  import opened Trails

  // ---- a push that is synced, and a second one parked behind it --------------------------

  const FIRST := Delivery("one", "a", 1, 3)
  const SECOND := Delivery("two", "b", 2, 4)
  const TASK := WebhookTask(1, 3)

  function Db1(): State { Stored(EMPTY, "one", "a", 1, 3, Pending) }
  function Db2(): State { Claim(Db1(), 3, 0, -RETRY_AFTER) }
  function Db3(): State { MarkRunning(Db2(), 3, 0) }
  function Db4(): State { Stored(Db3(), "two", "b", 2, 4, Blocked) }

  /** Worker 0, alone, at `phase`. */
  function At(seen: Seen, db: State, phase: Phase): Seen {
    seen.(db := db, workers := map[0 := Worker(TASK, phase)])
  }

  const ONE := Seen(EMPTY, map[], {TASK}, map[Key("one") := FIRST.payload], {(1, 3)}, {})
  const TWO := ONE.(payloads := map[Key("one") := FIRST.payload, Key("two") := SECOND.payload])

  lemma Started(queue: bool) returns (w: World)
    ensures Trail([w], [], Seen(EMPTY, map[], {}, map[], {}, {}), queue)
  {
    w := World(EMPTY, 0, queue, map[], map[], map[], {}, map[], map[], {}, {}, {}, map[]);
  }

  lemma EmptyAllows()
    ensures NewPush(EMPTY, "one", "a") && ManualAllowed(EMPTY, MAIN)
    ensures Claimable(Db1(), 3, -RETRY_AFTER)
  {
  }

  /** The first push is delivered, claimed and taken by worker 0. */
  lemma TakenTrail(queue: bool) returns (ws: seq<World>, steps: seq<Step>)
    ensures |steps| == 3 && Trail(ws, steps, At(ONE, Db2(), Phase.Received), queue)
  {
    hide Trail, Claim, Claimable, ManualAllowed, NewPush, Stored;
    var w := Started(queue);
    var seen := Seen(EMPTY, map[], {}, map[], {}, {});
    EmptyAllows();
    ws, steps, seen := PushThen([w], [], seen, queue, "one", "a", 1, 3);
    ws, steps, seen := ClaimThen(ws, steps, seen, queue, 1, 3);
    ws, steps, seen := TakeThen(ws, steps, seen, queue, 0, TASK);
    assert seen == At(ONE, Db2(), Phase.Received);
  }

  /** One transaction of worker 0. */
  lemma Turn(ws: seq<World>, steps: seq<Step>, seen: Seen, queue: bool,
    db: State, from: Phase, c: Choice, db': State, to: Phase)
    returns (ws': seq<World>, steps': seq<Step>)
    requires Trail(ws, steps, At(seen, db, from), queue) && !from.Done?
    requires 9 !in db.issued && (c == IDLE || c == RAISES) && db' == DbAfter(db, queue, Worker(TASK, from), c)
    requires |ws| == |steps| + 1 && PhaseAfter(ws[|steps|], Worker(TASK, from), c) == to
    ensures Trail(ws', steps', At(SeenAfter(seen, from), db', to), queue)
    ensures |ws'| == |ws| + 1 && |steps'| == |steps| + 1 && ws'[|steps|] == ws[|steps|] && steps'[|steps|] == Work(0, c)
    ensures ws'[|ws|].db == db' && ws'[|ws|].queueConfigured == queue && ws'[|ws|].workers == map[0 := Worker(TASK, to)]
  {
    hide Trail, DbAfter, PhaseAfter, Enabled, Next, Execution;
    var seen' := At(seen, db, from);
    ws', steps', seen' := WorkThen(ws, steps, At(seen, db, from), queue, 0, c, to);
    assert seen' == At(SeenAfter(seen, from), db', to);
    LastDb(ws', steps', seen', queue);
  }

  /** A send that was tried leaves its message in the queue. */
  function SeenAfter(seen: Seen, from: Phase): Seen {
    if from.Sending? then seen.(tasks := seen.tasks + {from.message}) else seen
  }

  /** The first three transactions of a worker whose run is PENDING. */
  lemma BuildPhase(w: World, task: Task)
    requires task.WebhookTask? && task.run in w.db.runs && w.db.runs[task.run].status.Pending?
    ensures PhaseAfter(w, Worker(task, Phase.Received), IDLE) == Building(false, 1)
    ensures PhaseAfter(w, Worker(task, Building(false, 1)), IDLE) == Phase.Starting(1)
    ensures PhaseAfter(w, Worker(task, Phase.Starting(1)), IDLE) == Resolving(1)
    ensures DbAfter(w.db, w.queueConfigured, Worker(task, Phase.Received), IDLE) == w.db
    ensures DbAfter(w.db, w.queueConfigured, Worker(task, Building(false, 1)), IDLE) == w.db
    ensures DbAfter(w.db, w.queueConfigured, Worker(task, Phase.Starting(1)), IDLE) == MarkRunning(w.db, task.run, 0)
  {
  }

  lemma Issued2()
    ensures 3 in Db2().runs && Db2().runs[3].status.Pending?
    ensures Db2().issued == {1, 3} && Db3().issued == {1, 3} && Db4().issued == {1, 2, 3, 4}
  {
  }

  /** The run has started. */
  lemma RunningTrail(queue: bool) returns (ws: seq<World>, steps: seq<Step>)
    ensures |steps| == 6 && Trail(ws, steps, At(ONE, Db3(), Resolving(1)), queue)
  {
    hide Trail, DbAfter, PhaseAfter, MarkRunning, Db2, At;
    ws, steps := TakenTrail(queue);
    LastAt(ws, steps, ONE, queue, Db2(), Phase.Received);
    Issued2();
    BuildPhase(ws[3], TASK);
    ws, steps := Turn(ws, steps, ONE, queue, Db2(), Phase.Received, IDLE, Db2(), Building(false, 1));
    BuildPhase(ws[4], TASK);
    ws, steps := Turn(ws, steps, ONE, queue, Db2(), Building(false, 1), IDLE, Db2(), Phase.Starting(1));
    BuildPhase(ws[5], TASK);
    ws, steps := Turn(ws, steps, ONE, queue, Db2(), Phase.Starting(1), IDLE, Db3(), Resolving(1));
  }

  lemma LastAt(ws: seq<World>, steps: seq<Step>, seen: Seen, queue: bool, db: State, phase: Phase)
    requires Trail(ws, steps, At(seen, db, phase), queue)
    ensures |ws| == |steps| + 1 && ws[|steps|].db == db && ws[|steps|].queueConfigured == queue
    ensures ws[|steps|].workers == map[0 := Worker(TASK, phase)]
  {
    LastDb(ws, steps, At(seen, db, phase), queue);
  }

  lemma RunningParks()
    ensures NewPush(Db3(), "two", "b") && !ManualAllowed(Db3(), MAIN)
    ensures Latest(Db3().runs, MAIN, Pending).None? && Latest(Db3().runs, MAIN, Running).Some?
    ensures Earliest(Db3().runs, MAIN, Blocked).None?
  {
    assert 3 in Db3().runs && Matches(Db3().runs[3], MAIN, Running);
  }

  /** The second push is parked behind it. */
  lemma ParkedTrail(queue: bool) returns (ws: seq<World>, steps: seq<Step>)
    ensures |steps| == 7 && Trail(ws, steps, At(TWO, Db4(), Resolving(1)), queue)
  {
    hide Trail, Db3, ManualAllowed, NewPush, Stored;
    ws, steps := RunningTrail(queue);
    var seen := At(ONE, Db3(), Resolving(1));
    RunningParks();
    Issued2();
    ws, steps, seen := PushThen(ws, steps, seen, queue, "two", "b", 2, 4);
    assert seen.payloads == TWO.payloads;
  }

  // ---- a follow-up stranded by a repeated delivery ---------------------------------------

  lemma ParkedRows()
    ensures Db4().runs == map[
      3 := Run(MAIN, WebhookPush, Some(1), Running, 0, Some(0), None, None, None),
      4 := NewRun(MAIN, WebhookPush, Some(2), Blocked, 0)]
    ensures Db4().events == map[
      1 := Pushed("one", "a", EventStatus.Queued, 3), 2 := Pushed("two", "b", EventStatus.Validated, 4)]
    ensures Known(Db4(), Key("two")) == Some(2) && Db4().issued == {1, 2, 3, 4} && FollowUpsReady(Db4())
  {
  }

  /** Push "b" is parked behind the RUNNING sync of push "a" and then delivered once more. Before the repeat the
      BLOCKED run can be released, after it no longer. */
  lemma StrandedByRepeat(queue: bool) returns (ws: seq<World>, steps: seq<Step>)
    ensures Execution(ws, steps) && |steps| == 8 && |ws| == 9
    ensures FollowUpsReady(ws[7].db) && !FollowUpsReady(ws[8].db)
  {
    hide Db4, Process, FollowUpsReady, Next, Enabled, Execution;
    ws, steps := ParkedTrail(queue);
    var seen := At(TWO, Db4(), Resolving(1));
    LastShows(ws, steps, seen, queue);
    ParkedRows();
    var again := Delivery("two", "b", 5, 6);
    SamePayload2();
    DeliverShows(ws[7], seen, queue, again);
    RepeatStrands(Db4(), again, 4);
    Grown(ws, steps, Deliver(again, None));
    ws, steps := ws + [Next(ws[7], Deliver(again, None))], steps + [Deliver(again, None)];
    NotReady(ws[8].db, 4);
  }

  lemma SamePayload2()
    ensures Delivery("two", "b", 5, 6).payload == SECOND.payload && Delivery("two", "b", 5, 6).payload.key == Key("two")
  {
  }

  lemma NotReady(s: State, b: Id)
    requires b in s.runs && s.runs[b].status.Blocked? && !Releasable(s, b)
    ensures !FollowUpsReady(s)
  {
  }

  // ---- a failed run, and the four ways to lose its follow-up -----------------------------

  function Db5(): State { MarkFailed(Db4(), 3, SnapshotWriteFailed, 0) }
  ghost function Db6(): State { FailWebhook(Db5(), 1, 3, 0) }

  lemma ResolvingPhase(w: World, queue: bool)
    requires w.db == Db4()
    ensures PhaseAfter(w, Worker(TASK, Resolving(1)), RAISES) == FailingBuild(SnapshotWriteFailed)
    ensures DbAfter(Db4(), queue, Worker(TASK, Resolving(1)), RAISES) == Db4()
    ensures PhaseAfter(w, Worker(TASK, FailingBuild(SnapshotWriteFailed)), IDLE) == Failing
    ensures DbAfter(Db4(), queue, Worker(TASK, FailingBuild(SnapshotWriteFailed)), IDLE) == Db5()
  {
    hide MarkFailed, Db4;
  }

  lemma FailingPhase(w: World, db: State, queue: bool)
    ensures PhaseAfter(w, Worker(TASK, Failing), RAISES) == Done
    ensures DbAfter(db, queue, Worker(TASK, Failing), RAISES) == db
    ensures PhaseAfter(w, Worker(TASK, Failing), IDLE) == FollowingUp
    ensures DbAfter(db, queue, Worker(TASK, Failing), IDLE) == FailWebhook(db, 1, 3, 0)
  {
    hide FailWebhook;
  }

  /** The build of the first push fails; worker 0 has its failure to handle. */
  lemma FailedTrail(queue: bool) returns (ws: seq<World>, steps: seq<Step>)
    ensures |steps| == 9 && Trail(ws, steps, At(TWO, Db5(), Failing), queue)
  {
    hide Trail, DbAfter, PhaseAfter, Db4, Db5, At;
    ws, steps := ParkedTrail(queue);
    LastAt(ws, steps, TWO, queue, Db4(), Resolving(1));
    Issued2();
    ResolvingPhase(ws[7], queue);
    ws, steps := Turn(ws, steps, TWO, queue, Db4(), Resolving(1), RAISES, Db4(), FailingBuild(SnapshotWriteFailed));
    ResolvingPhase(ws[8], queue);
    ws, steps := Turn(ws, steps, TWO, queue, Db4(), FailingBuild(SnapshotWriteFailed), IDLE, Db5(), Failing);
  }

  lemma FailedRows()
    ensures Db5().issued == {1, 2, 3, 4} && Db5().events == Db4().events
    ensures Db6().issued == {1, 2, 3, 4} && Db6().runs == Db5().runs
    ensures Db5().runs.Keys == {3, 4}
    ensures Db5().runs[3].ref == MAIN && Db5().runs[3].status.Failed?
    ensures Db5().runs[4] == NewRun(MAIN, WebhookPush, Some(2), Blocked, 0)
  {
    hide RestoreCursor, Db4;
    ParkedRows();
    Effects.RestoreOnlyCursors(UpdateEvent(Db5(), 1, Decision.Queued, EventStatus.Failed, None), 1);
  }

  /** The failed run's worker still owes the follow-up, and that is all that covers the parked push. */
  ghost predicate OneDebt(w: World) {
    && w.db.runs == Db5().runs && w.workers.Keys == {0} && w.workers[0].task == TASK && !Leaves(w.workers[0].phase)
  }

  lemma DebtCovers(w: World)
    requires OneDebt(w)
    ensures AllCovered(w) && Owes(w, 0, MAIN) && !ActiveOn(w.db, MAIN) && BlockedOn(w.db, MAIN)
  {
    hide Db4, Db5, Db6;
    FailedRows();
    BlockedIs(w.db, 4);
    assert Owes(w, 0, MAIN);
  }

  lemma DebtDropped(w: World, c: Choice)
    requires OneDebt(w) && DropsDebt(w.queueConfigured, w.workers[0], c)
    ensures LosesFollowUp(w, Work(0, c))
  {
    hide Db4, Db5, Db6, ActiveOn, BlockedOn;
    FailedRows();
    DebtCovers(w);
  }

  /** The last step of a run with distinct delivery ids takes a covered BLOCKED run its cover. */
  ghost predicate LosesAtLast(ws: seq<World>, steps: seq<Step>) {
    && Execution(ws, steps) && DistinctIds(steps) && |steps| > 0 && |ws| == |steps| + 1
    && AllCovered(ws[|steps| - 1]) && LosesFollowUp(ws[|steps| - 1], steps[|steps| - 1]) && !AllCovered(ws[|steps|])
  }

  lemma LastLoses(ws: seq<World>, steps: seq<Step>)
    requires Execution(ws, steps) && DistinctIds(steps) && |steps| > 0
    requires AllCovered(ws[|steps| - 1]) && LosesFollowUp(ws[|steps| - 1], steps[|steps| - 1])
    ensures LosesAtLast(ws, steps)
  {
    hide Sound, FollowUpsReady, LinksCurrent, AllCovered, LosesFollowUp, Enabled, Next, DistinctIds;
    var i := |steps| - 1;
    Safety.AlwaysSound(ws, steps, i);
    AlwaysReady(ws, steps, i);
    CoveredExactly(ws[i], steps[i]);
  }

  /** A webhook task whose failure handler raises too. */
  lemma LostByHandler(queue: bool) returns (ws: seq<World>, steps: seq<Step>)
    ensures LosesAtLast(ws, steps) && |steps| == 10 && steps[9] == Work(0, RAISES)
    ensures 0 in ws[9].workers && ws[9].workers[0].phase.Failing?
  {
    hide Trail, DbAfter, PhaseAfter, FailWebhook, Db4, Db5, Db6, At, LosesAtLast, OneDebt;
    ws, steps := FailedTrail(queue);
    LastAt(ws, steps, TWO, queue, Db5(), Failing);
    FailedRows();
    var before := ws[9];
    Indebted(before, Failing);
    FailingPhase(before, Db5(), queue);
    ws, steps := Turn(ws, steps, TWO, queue, Db5(), Failing, RAISES, Db5(), Done);
    assert ws[9] == before;
    DebtLost(ws, steps, TWO, queue, Db5(), RAISES);
  }

  lemma Indebted(w: World, phase: Phase)
    requires w.db.runs == Db5().runs && w.workers == map[0 := Worker(TASK, phase)] && !Leaves(phase)
    ensures OneDebt(w)
  {
  }

  lemma DebtLost(ws: seq<World>, steps: seq<Step>, seen: Seen, queue: bool, db: State, c: Choice)
    requires Trail(ws, steps, At(seen, db, Done), queue) && |steps| > 0 && steps[|steps| - 1] == Work(0, c)
    requires |ws| == |steps| + 1 && OneDebt(ws[|steps| - 1])
    requires DropsDebt(ws[|steps| - 1].queueConfigured, ws[|steps| - 1].workers[0], c)
    ensures LosesAtLast(ws, steps)
  {
    hide LosesFollowUp, AllCovered, LosesAtLast, Execution, DistinctIds, Shows, At;
    Trailing(ws, steps, At(seen, db, Done), queue);
    DebtCovers(ws[|steps| - 1]);
    DebtDropped(ws[|steps| - 1], c);
    LastLoses(ws, steps);
  }

  lemma FailedDb()
    ensures Db6() == FailWebhook(Db5(), 1, 3, 0) && Db8() == FailWebhook(Db7(), 1, 3, 0)
  {
  }

  lemma FollowingPhases(w: World, queue: bool, c: Choice)
    requires w.queueConfigured == queue && (c.outcome.Error? || !queue)
    ensures PhaseAfter(w, Worker(TASK, FollowingUp), c) == Done
    ensures DbAfter(Db6(), queue, Worker(TASK, FollowingUp), c) == Db6()
  {
    hide FollowUp, Db6;
  }

  /** A follow-up that raises, or finds no queue. */
  lemma LostByFollowUp(queue: bool) returns (ws: seq<World>, steps: seq<Step>)
    ensures LosesAtLast(ws, steps) && |steps| == 11 && steps[10] == Work(0, if queue then RAISES else IDLE)
    ensures 0 in ws[10].workers && ws[10].workers[0].phase.FollowingUp? && ws[10].queueConfigured == queue
  {
    hide Trail, DbAfter, PhaseAfter, FailWebhook, Db4, Db5, Db6, Db7, Db8, At, LosesAtLast, OneDebt;
    var c := if queue then RAISES else IDLE;
    ws, steps := FailedTrail(queue);
    LastAt(ws, steps, TWO, queue, Db5(), Failing);
    FailedRows();
    FailingPhase(ws[9], Db5(), queue);
    FailedDb();
    ws, steps := Turn(ws, steps, TWO, queue, Db5(), Failing, IDLE, Db6(), FollowingUp);
    var before := ws[10];
    Indebted(before, FollowingUp);
    FollowingPhases(before, queue, c);
    ws, steps := Turn(ws, steps, TWO, queue, Db6(), FollowingUp, c, Db6(), Done);
    assert ws[10] == before;
    DebtLost(ws, steps, TWO, queue, Db6(), c);
  }

  // ---- lost by a failed send -------------------------------------------------------------

  const THIRD := Delivery("three", "c", 5, 6)
  const MESSAGE := WebhookTask(5, 6)
  const THREE := TWO.(payloads := TWO.payloads[Key("three") := THIRD.payload], dispatches := {(1, 3), (5, 6)})

  function Db7(): State { Stored(Db5(), "three", "c", 5, 6, Pending) }
  ghost function Db8(): State { FailWebhook(Db7(), 1, 3, 0) }
  ghost function Db9(): State { Claim(Db8(), 6, 0, -RETRY_AFTER) }

  lemma FailedAllows()
    ensures NewPush(Db5(), "three", "c") && ManualAllowed(Db5(), MAIN)
    ensures Db7().issued == {1, 2, 3, 4, 5, 6}
  {
    hide Db4;
    FailedRows();
    ParkedCursor();
    assert Db5().deliveries == Db4().deliveries && Db5().cursors == Db4().cursors;
  }

  lemma ParkedCursor()
    ensures CURSOR in Db4().cursors && Db4().cursors[CURSOR].head == "b"
    ensures Db4().deliveries.Keys == {Key("one"), Key("two")}
  {
  }

  lemma SendRows()
    ensures Db8().issued == Db7().issued && Db8().runs == Db7().runs && Db9().issued == Db7().issued
    ensures Db8().runs.Keys == {3, 4, 6} && Db8().runs[3] == Db5().runs[3] && Db8().runs[4] == Db5().runs[4]
    ensures Db8().runs[6] == NewRun(MAIN, WebhookPush, Some(5), Pending, 0)
    ensures Db8().events.Keys == {1, 2, 5} && Db8().events[1].run == Some(3)
    ensures Db8().events[5] == Pushed("three", "c", EventStatus.Queued, 6)
    ensures Db9().runs == Db8().runs[6 := Db8().runs[6].(dispatchedAt := Some(0))] && Db9().events == Db8().events
  {
    hide RestoreCursor, Db5;
    FailedRows();
    ParkedRows();
    Effects.RestoreOnlyCursors(UpdateEvent(Db7(), 1, Decision.Queued, EventStatus.Failed, None), 1);
  }

  lemma SendsThird()
    ensures FollowUp(Db8(), 3, Some(1), IDLE.clock) == (Db9(), Some(6)) && TaskFor(Db9(), 6) == MESSAGE
  {
    hide Db4, Db5, Db6, Db7, Db8;
    FailedRows();
    SendRows();
    var s := Db8();
    assert Matches(s.runs[6], MAIN, Pending);
    assert Latest(s.runs, MAIN, Pending) == Some(6);
    assert NextRun(s, 3, IDLE.clock) == (s, Some(6));
  }

  lemma SendingPhases(w: World)
    requires w.queueConfigured
    ensures w.db == Db8() ==> PhaseAfter(w, Worker(TASK, FollowingUp), IDLE) == Sending(6, MESSAGE)
    ensures DbAfter(Db8(), true, Worker(TASK, FollowingUp), IDLE) == Db9()
  {
    hide Db7, Db8, Db9, FollowUp, TaskFor;
    SendsThird();
  }

  lemma SentPhases(w: World, db: State)
    ensures PhaseAfter(w, Worker(TASK, Sending(6, MESSAGE)), RAISES) == DispatchFailing(6)
    ensures DbAfter(db, true, Worker(TASK, Sending(6, MESSAGE)), RAISES) == db
    ensures PhaseAfter(w, Worker(TASK, DispatchFailing(6)), IDLE) == Done
  {
  }

  /** Push "c" arrives after the first run has failed and before its follow-up: it starts a run of its own beside the
      BLOCKED one. */
  lemma ThirdTrail() returns (ws: seq<World>, steps: seq<Step>)
    ensures |steps| == 11 && Trail(ws, steps, At(THREE, Db8(), FollowingUp), true)
  {
    hide Trail, DbAfter, PhaseAfter, FailWebhook, Db5, Db7, Db8, At;
    ws, steps := FailedTrail(true);
    FailedIds();
    FailedDb();
    ws, steps := ThirdPush(ws, steps);
    LastAt(ws, steps, THREE, true, Db7(), Failing);
    FailingPhase(ws[10], Db7(), true);
    ws, steps := Turn(ws, steps, THREE, true, Db7(), Failing, IDLE, Db8(), FollowingUp);
  }

  lemma FailedIds()
    ensures Db7().issued == {1, 2, 3, 4, 5, 6} && Db8().issued == Db7().issued && Db9().issued == Db7().issued
  {
    hide Db7, Db8, Db9;
    FailedAllows();
    SendRows();
  }

  /** The follow-up claims that run, and worker 0 is about to send it. */
  lemma SendingTrail() returns (ws: seq<World>, steps: seq<Step>)
    ensures |steps| == 12 && Trail(ws, steps, At(THREE, Db9(), Sending(6, MESSAGE)), true)
  {
    hide Trail, DbAfter, PhaseAfter, Db7, Db8, Db9, At;
    ws, steps := ThirdTrail();
    FailedIds();
    LastAt(ws, steps, THREE, true, Db8(), FollowingUp);
    SendingPhases(ws[11]);
    ws, steps := Turn(ws, steps, THREE, true, Db8(), FollowingUp, IDLE, Db9(), Sending(6, MESSAGE));
  }

  lemma ThirdPush(ws: seq<World>, steps: seq<Step>) returns (ws': seq<World>, steps': seq<Step>)
    requires Trail(ws, steps, At(TWO, Db5(), Failing), true)
    ensures Trail(ws', steps', At(THREE, Db7(), Failing), true) && |steps'| == |steps| + 1
  {
    hide Trail, Db5, ManualAllowed, NewPush, Stored;
    FailedAllows();
    FailedRows();
    var seen' := At(TWO, Db5(), Failing);
    ws', steps', seen' := PushThen(ws, steps, At(TWO, Db5(), Failing), true, "three", "c", 5, 6);
    assert seen'.dispatches == THREE.dispatches;
  }

  const FOUR := THREE.(tasks := {TASK, MESSAGE})

  lemma FailsToSend() returns (ws: seq<World>, steps: seq<Step>)
    ensures |steps| == 13 && Trail(ws, steps, At(FOUR, Db9(), DispatchFailing(6)), true)
  {
    hide Trail, DbAfter, PhaseAfter, Db7, Db8, Db9, At;
    ws, steps := SendingTrail();
    FailedIds();
    LastAt(ws, steps, THREE, true, Db9(), Sending(6, MESSAGE));
    SentPhases(ws[12], Db9());
    assert SeenAfter(THREE, Sending(6, MESSAGE)) == FOUR;
    ws, steps := Turn(ws, steps, THREE, true, Db9(), Sending(6, MESSAGE), RAISES, Db9(), DispatchFailing(6));
  }

  /** A follow-up whose send fails: the run it was for was all that covered the BLOCKED one. */
  lemma LostBySend() returns (ws: seq<World>, steps: seq<Step>)
    ensures LosesAtLast(ws, steps) && |steps| == 14 && steps[13] == Work(0, IDLE)
    ensures 0 in ws[13].workers && ws[13].workers[0].phase.DispatchFailing?
  {
    hide Trail, DbAfter, PhaseAfter, Db7, Db8, Db9, At, LosesAtLast;
    ws, steps := FailsToSend();
    FailedIds();
    LastAt(ws, steps, FOUR, true, Db9(), DispatchFailing(6));
    var before, after := ws[13], DbAfter(Db9(), true, Worker(TASK, DispatchFailing(6)), IDLE);
    SentPhases(before, Db9());
    ws, steps := Turn(ws, steps, FOUR, true, Db9(), DispatchFailing(6), IDLE, after, Done);
    Trailing(ws, steps, At(FOUR, after, Done), true);
    assert ws[13] == before;
    SendLost(ws, steps, before);
  }

  lemma SendLost(ws: seq<World>, steps: seq<Step>, w: World)
    requires Execution(ws, steps) && DistinctIds(steps) && |steps| == 14 && ws[13] == w && steps[13] == Work(0, IDLE)
    requires w.db == Db9() && w.workers == map[0 := Worker(TASK, DispatchFailing(6))]
    ensures LosesAtLast(ws, steps)
  {
    hide Db5, Db9, Execution, AllCovered, LosesFollowUp, DistinctIds;
    SentCovered(w);
    LastLoses(ws, steps);
  }

  lemma SentCovered(w: World)
    requires w.db == Db9() && w.workers == map[0 := Worker(TASK, DispatchFailing(6))]
    ensures AllCovered(w) && LosesFollowUp(w, Work(0, IDLE))
  {
    hide Db9, ActiveOn, BlockedOn;
    SentRuns(w);
  }

  lemma SentRuns(w: World)
    requires w.db == Db9()
    ensures ActiveOn(w.db, MAIN) && BlockedOn(w.db, MAIN) && 6 in w.db.runs && IsActive(w.db.runs[6].status)
    ensures forall b :: b in w.db.runs ==> w.db.runs[b].ref == MAIN
  {
    hide Db4, Db5, Db6, Db7, Db8, Db9, ActiveOn, BlockedOn;
    FailedRows();
    SendRows();
    ActiveIs(w.db, MAIN, 6);
    BlockedIs(w.db, 4);
  }

  // ---- lost by a cancelled manual run ----------------------------------------------------

  const CANCEL := TWO.(tasks := {TASK, ManualTask(5)}, manual := {5})

  function DbM(): State { CreateManual(Db5(), MAIN, ManualRefresh, 5, 0) }
  ghost function DbN(): State { FailWebhook(DbM(), 1, 3, 0) }

  lemma ManualRows()
    ensures DbM().issued == {1, 2, 3, 4, 5} && DbN().issued == DbM().issued && DbN().runs == DbM().runs
    ensures DbM().runs.Keys == {3, 4, 5} && DbM().runs[3] == Db5().runs[3] && DbM().runs[4] == Db5().runs[4]
    ensures DbM().runs[5] == NewRun(MAIN, ManualRefresh, None, Pending, 0)
    ensures DbN().events.Keys == {1, 2} && DbN().events[1].run == Some(3)
    ensures DbN().events[2] == Pushed("two", "b", EventStatus.Validated, 4)
  {
    hide RestoreCursor, Db4, Db5, Db6;
    FailedRows();
    ParkedRows();
    assert ManualAllowed(Db5(), MAIN) by { FailedAllows(); }
    Effects.RestoreOnlyCursors(UpdateEvent(DbM(), 1, Decision.Queued, EventStatus.Failed, None), 1);
  }

  /** The manual run is active, so the follow-up leaves the BLOCKED one alone. */
  lemma ManualWaits()
    ensures FollowUp(DbN(), 3, Some(1), IDLE.clock) == (DbN(), None)
  {
    hide Db4, Db5, Db6, Db7, DbM, DbN, Latest, Earliest;
    FailedRows();
    ManualRows();
    PendingIsManual(DbN().runs);
    WaitsFor(DbN(), 3, Some(1), 4, 5);
  }

  lemma PendingIsManual(runs: map<Id, Run>)
    requires runs.Keys == {3, 4, 5} && Matches(runs[5], MAIN, Pending) && Matches(runs[4], MAIN, Blocked)
    requires !runs[3].status.Pending? && !runs[3].status.Blocked?
    ensures Latest(runs, MAIN, Pending) == Some(5) && Earliest(runs, MAIN, Blocked) == Some(4)
  {
  }

  /** Behind a PENDING manual run a follow-up of `r` changes nothing. */
  lemma WaitsFor(s: State, r: Id, e: Option<Id>, b: Id, p: Id)
    requires r in s.runs && b in s.runs && p in s.runs && p != r && p != b && s.runs[r].ref == s.runs[b].ref
    requires s.runs[p].ref == s.runs[b].ref && s.runs[p].status.Pending? && s.runs[p].trigger.None?
    requires Latest(s.runs, s.runs[r].ref, Pending) == Some(p) && Earliest(s.runs, s.runs[r].ref, Blocked) == Some(b)
    ensures FollowUp(s, r, e, IDLE.clock) == (s, None)
  {
    hide Latest, Earliest, Relevant;
    assert AnotherActive(s, b);
  }

  lemma WaitingPhase(w: World)
    requires w.db == DbN()
    ensures PhaseAfter(w, Worker(TASK, FollowingUp), IDLE) == Done
    ensures DbAfter(DbN(), w.queueConfigured, Worker(TASK, FollowingUp), IDLE) == DbN()
  {
    hide FollowUp, DbN;
    ManualWaits();
  }

  lemma ManualThen(ws: seq<World>, steps: seq<Step>) returns (ws': seq<World>, steps': seq<Step>)
    requires Trail(ws, steps, At(TWO, Db5(), Failing), true)
    ensures Trail(ws', steps', At(CANCEL, DbM(), Failing), true) && |steps'| == |steps| + 1
  {
    hide Trail, Db4, Db5, Db6, Db7, Enabled, Next, Shows, ManualAllowed, CreateManual;
    FailedRows();
    FailedAllows();
    var seen := At(TWO, Db5(), Failing);
    LastShows(ws, steps, seen, true);
    ManualShows(ws[|steps|], seen, true, 5);
    assert At(CANCEL, DbM(), Failing)
      == seen.(db := DbM(), tasks := seen.tasks + {ManualTask(5)}, manual := seen.manual + {5});
    ws', steps' := OtherThen(ws, steps, seen, true, RequestManual(MAIN, ManualRefresh, 5, 0), At(CANCEL, DbM(), Failing));
  }

  lemma WaitingTrail() returns (ws: seq<World>, steps: seq<Step>)
    ensures |steps| == 12 && Trail(ws, steps, At(CANCEL, DbN(), Done), true)
  {
    hide Trail, DbAfter, PhaseAfter, FailWebhook, Db5, DbM, DbN, At;
    ws, steps := FailedTrail(true);
    ManualRows();
    ws, steps := ManualThen(ws, steps);
    LastAt(ws, steps, CANCEL, true, DbM(), Failing);
    FailingPhase(ws[10], DbM(), true);
    ManualDb();
    ws, steps := Turn(ws, steps, CANCEL, true, DbM(), Failing, IDLE, DbN(), FollowingUp);
    WaitingPhase(ws[11]);
    ws, steps := Turn(ws, steps, CANCEL, true, DbN(), FollowingUp, IDLE, DbN(), Done);
  }

  lemma ManualDb()
    ensures DbN() == FailWebhook(DbM(), 1, 3, 0)
  {
  }

  /** A manual run is requested between the first run's failure and its follow-up, which therefore waits; then the
      manual run is cancelled. */
  lemma LostByCancel() returns (ws: seq<World>, steps: seq<Step>)
    ensures LosesAtLast(ws, steps) && |steps| == 13 && steps[12] == WithdrawManual(5)
  {
    hide Trail, Enabled, Next, Shows, DbN, LosesAtLast, AllCovered, LosesFollowUp;
    ws, steps := WaitingTrail();
    var seen := At(CANCEL, DbN(), Done);
    LastShows(ws, steps, seen, true);
    LastDb(ws, steps, seen, true);
    WithdrawShows(ws[12], seen, true, 5);
    CancelLoses(ws[12]);
    ws, steps := OtherThen(ws, steps, seen, true, WithdrawManual(5), seen.(db := CancelManual(DbN(), 5)));
    Trailing(ws, steps, seen.(db := CancelManual(DbN(), 5)), true);
    LastLoses(ws, steps);
  }

  lemma CancelLoses(w: World)
    requires w.db == DbN() && w.workers == map[0 := Worker(TASK, Done)]
    ensures AllCovered(w) && LosesFollowUp(w, WithdrawManual(5))
  {
    hide Db4, Db5, Db6, DbM, DbN, ActiveOn, BlockedOn;
    FailedRows();
    ManualRows();
    ActiveIs(w.db, MAIN, 5);
    BlockedIs(w.db, 4);
  }

  // ---- a follow-up stranded by a failed send ---------------------------------------------

  const RIVAL := WebhookTask(2, 4)

  ghost function DbP(): State { FailWebhook(Db2(), 1, 3, 0) }
  ghost function DbQ(): State { Claim(Stored(DbP(), "two", "b", 2, 4, Pending), 4, 0, -RETRY_AFTER) }
  ghost function DbR(): State { MarkRunning(DbQ(), 4, 0) }

  ghost function RivalSeen(db: State, phase: Phase): Seen {
    TWO.(db := db, workers := map[0 := Worker(TASK, FollowingUp), 1 := Worker(RIVAL, phase)], tasks := {TASK, RIVAL},
         dispatches := {(1, 3), (2, 4)})
  }

  lemma FirstFails()
    ensures DbP().cursors == map[] && DbP().issued == {1, 3} && DbP().deliveries == map[Key("one") := 1]
    ensures DbP().events == map[1 := Pushed("one", "a", EventStatus.Failed, 3)]
    ensures DbP().runs.Keys == {3} && DbP().runs[3].ref == MAIN && DbP().runs[3].status.Failed?
    ensures NewPush(DbP(), "two", "b") && ManualAllowed(DbP(), MAIN)
  {
    hide RestoreCursor;
    var failed := UpdateEvent(MarkFailed(Db2(), 3, SnapshotWriteFailed, 0), 1, Decision.Queued, EventStatus.Failed, None);
    assert failed.events == map[1 := Pushed("one", "a", EventStatus.Failed, 3)];
    assert failed.cursors == map[CURSOR := Cursor("a", 1)];
    Effects.RestoreOnlyCursors(failed, 1);
    NoneLeft(failed);
  }

  lemma NoneLeft(s: State)
    requires s.events == map[1 := Pushed("one", "a", EventStatus.Failed, 3)] && s.cursors == map[CURSOR := Cursor("a", 1)]
    ensures RestoreCursor(s, 1).cursors == map[]
  {
  }

  lemma RivalRows()
    ensures DbQ().issued == {1, 2, 3, 4} && DbR().issued == DbQ().issued && DbR().events == DbQ().events
    ensures DbQ().events == map[
      1 := Pushed("one", "a", EventStatus.Failed, 3), 2 := Pushed("two", "b", EventStatus.Queued, 4)]
    ensures 4 in DbQ().runs && DbQ().runs[4].status.Pending?
    ensures DbR().runs.Keys == {3, 4} && DbR().runs[3] == DbP().runs[3] && DbR().runs[4].ref == MAIN
    ensures DbR().runs[4].status.Running? && DbR().deliveries == map[Key("one") := 1, Key("two") := 2]
    ensures Claimable(Stored(DbP(), "two", "b", 2, 4, Pending), 4, -RETRY_AFTER)
  {
    hide DbP;
    FirstFails();
  }

  /** The task of the first push raises before it builds, and its handler fails the run and the event. */
  lemma FirstTrail() returns (ws: seq<World>, steps: seq<Step>)
    ensures |steps| == 5 && Trail(ws, steps, At(ONE, DbP(), FollowingUp), true)
  {
    hide Trail, DbAfter, PhaseAfter, FailWebhook, Db2, At;
    ws, steps := TakenTrail(true);
    LastAt(ws, steps, ONE, true, Db2(), Phase.Received);
    Issued2();
    ReceivedRaises(ws[3]);
    ws, steps := Turn(ws, steps, ONE, true, Db2(), Phase.Received, RAISES, Db2(), Failing);
    FailingPhase(ws[4], Db2(), true);
    ws, steps := Turn(ws, steps, ONE, true, Db2(), Failing, IDLE, DbP(), FollowingUp);
  }

  lemma ReceivedRaises(w: World)
    ensures PhaseAfter(w, Worker(TASK, Phase.Received), RAISES) == Failing
    ensures DbAfter(w.db, true, Worker(TASK, Phase.Received), RAISES) == w.db
  {
  }

  /** A second push starts a run of its own, which is claimed and taken by worker 1. */
  lemma RivalTaken() returns (ws: seq<World>, steps: seq<Step>)
    ensures |steps| == 8 && Trail(ws, steps, RivalSeen(DbQ(), Phase.Received), true)
  {
    hide Trail, DbP, Claim, Claimable, ManualAllowed, NewPush, Stored;
    ws, steps := FirstTrail();
    var seen := At(ONE, DbP(), FollowingUp);
    FirstFails();
    RivalRows();
    ws, steps, seen := PushThen(ws, steps, seen, true, "two", "b", 2, 4);
    ws, steps, seen := ClaimThen(ws, steps, seen, true, 2, 4);
    ws, steps, seen := TakeThen(ws, steps, seen, true, 1, RIVAL);
    assert seen.payloads == TWO.payloads && seen.dispatches == {(1, 3), (2, 4)};
    assert seen == RivalSeen(DbQ(), Phase.Received);
  }

  /** One transaction of worker 1. */
  lemma RivalTurn(ws: seq<World>, steps: seq<Step>, db: State, from: Phase, db': State, to: Phase)
    returns (ws': seq<World>, steps': seq<Step>)
    requires Trail(ws, steps, RivalSeen(db, from), true) && !from.Done? && !from.Sending? && 9 !in db.issued
    requires |ws| == |steps| + 1 && PhaseAfter(ws[|steps|], Worker(RIVAL, from), IDLE) == to
    requires db' == DbAfter(db, true, Worker(RIVAL, from), IDLE)
    ensures Trail(ws', steps', RivalSeen(db', to), true) && |steps'| == |steps| + 1 == |ws'| - 1
    ensures ws'[|ws|].db == db' && ws'[|ws|].queueConfigured
  {
    hide Trail, DbAfter, PhaseAfter, Enabled, Next, Execution;
    var seen' := RivalSeen(db, from);
    ws', steps', seen' := WorkThen(ws, steps, RivalSeen(db, from), true, 1, IDLE, to);
    assert seen' == RivalSeen(db', to);
    LastDb(ws', steps', seen', true);
  }

  lemma RivalTrail() returns (ws: seq<World>, steps: seq<Step>)
    ensures |steps| == 11 && Trail(ws, steps, RivalSeen(DbR(), Resolving(1)), true)
  {
    hide Trail, DbAfter, PhaseAfter, MarkRunning, DbQ, DbP, RivalSeen;
    ws, steps := RivalTaken();
    RivalRows();
    RivalLast(ws, steps, DbQ(), Phase.Received);
    BuildPhase(ws[8], RIVAL);
    ws, steps := RivalTurn(ws, steps, DbQ(), Phase.Received, DbQ(), Building(false, 1));
    BuildPhase(ws[9], RIVAL);
    ws, steps := RivalTurn(ws, steps, DbQ(), Building(false, 1), DbQ(), Phase.Starting(1));
    BuildPhase(ws[10], RIVAL);
    ws, steps := RivalTurn(ws, steps, DbQ(), Phase.Starting(1), DbR(), Resolving(1));
  }

  lemma RivalLast(ws: seq<World>, steps: seq<Step>, db: State, phase: Phase)
    requires Trail(ws, steps, RivalSeen(db, phase), true)
    ensures |ws| == |steps| + 1 && ws[|steps|].db == db && ws[|steps|].queueConfigured
  {
    LastDb(ws, steps, RivalSeen(db, phase), true);
  }

  /** The first push is delivered again: its event FAILED, so this is a retry, and it is parked behind the second. */
  lemma RetryParks()
    ensures var p := Process(DbR(), Delivery("one", "a", 5, 6));
      && p.state.runs == DbR().runs[6 := NewRun(MAIN, WebhookPush, Some(1), Blocked, 0)] && !p.enqueue
      && p.state.events == DbR().events[1 := Pushed("one", "a", EventStatus.Validated, 6)]
  {
    hide DbP, DbQ, DbR;
    FirstFails();
    RivalRows();
    var s, a := DbR(), Delivery("one", "a", 5, 6);
    assert Known(s, a.payload.key) == Some(1) && IsRetry(s, a) && DecisionFor(s, a).Queued?;
    RetriedPark(s, a);
  }

  lemma RetriedPark(s: State, a: Arrival)
    requires a == Delivery("one", "a", 5, 6) && Known(s, a.payload.key) == Some(1)
    requires IsRetry(s, a) && DecisionFor(s, a).Queued?
    requires s.events[1] == Pushed("one", "a", EventStatus.Failed, 3) && s.runs.Keys == {3, 4}
    requires s.runs[3].status.Failed? && s.runs[4].ref == MAIN && s.runs[4].status.Running?
    ensures var p := Process(s, a);
      && p.state.runs == s.runs[6 := NewRun(MAIN, WebhookPush, Some(1), Blocked, 0)] && !p.enqueue
      && p.state.events == s.events[1 := Pushed("one", "a", EventStatus.Validated, 6)]
  {
    hide IsRetry, DecisionFor, Known;
    assert Matches(s.runs[4], MAIN, Running);
    assert RequestedRef(a.payload) == MAIN;
    var s1 := Record(s, a);
    assert s1.events == s.events[1 := Pushed("one", "a", EventStatus.Queued, 3)] && s1.runs == s.runs;
    assert Process(s, a) == Park(s1, a, 1, MAIN);
  }

  ghost predicate Retried(s: State) {
    && s.events == DbR().events[1 := Pushed("one", "a", EventStatus.Validated, 6)]
    && s.runs == DbR().runs[6 := NewRun(MAIN, WebhookPush, Some(1), Blocked, 0)]
  }

  lemma RetriedReady(s: State)
    requires Retried(s)
    ensures FollowUpsReady(s) && !FollowUpsReady(EnqueueFailed(s, 1, 3))
  {
    hide DbP, DbQ, DbR;
    FirstFails();
    RivalRows();
    assert Releasable(s, 6);
    NotReady(EnqueueFailed(s, 1, 3), 6);
  }

  lemma RetryShows(w: World) returns (seen: Seen)
    requires Shows(w, RivalSeen(DbR(), Resolving(1)), true)
    ensures var retry := Deliver(Delivery("one", "a", 5, 6), None); Enabled(w, retry) && Shows(Next(w, retry), seen, true)
    ensures Retried(seen.db) && (1, 3) in seen.dispatches && TASK in seen.tasks
  {
    hide DbP, DbQ, DbR, Process, Retried, Shows, Next, Enabled;
    var was, a := RivalSeen(DbR(), Resolving(1)), Delivery("one", "a", 5, 6);
    RivalRows();
    DeliverShows(w, was, true, a);
    RetryParks();
    IsRetried(Process(DbR(), a).state);
    seen := was.(db := Process(DbR(), a).state, payloads := was.payloads[a.payload.key := a.payload]);
  }

  /** The first push is delivered once more and waits as the trigger of a BLOCKED run. */
  lemma RetriedTrail() returns (ws: seq<World>, steps: seq<Step>, seen: Seen)
    ensures Execution(ws, steps) && |steps| == 12 && |ws| == 13 && Shows(ws[12], seen, true)
    ensures Retried(seen.db) && (1, 3) in seen.dispatches && TASK in seen.tasks
  {
    hide Trail, DbR, RivalSeen, Retried, Shows, Next, Enabled, Execution;
    ws, steps := RivalTrail();
    LastShows(ws, steps, RivalSeen(DbR(), Resolving(1)), true);
    Trailing(ws, steps, RivalSeen(DbR(), Resolving(1)), true);
    seen := RetryShows(ws[11]);
    var retry := Deliver(Delivery("one", "a", 5, 6), None);
    Grown(ws, steps, retry);
    ws, steps := ws + [Next(ws[11], retry)], steps + [retry];
  }

  /** The send of the first push's task is reported as failed although it went out and its task has run and FAILED.
      Meanwhile the delivery has been retried and waits as the trigger of a BLOCKED run: the report requeues its event
      and strands that run. The dispatch was claimed, and its message is in the queue. */
  lemma StrandedBySend() returns (ws: seq<World>, steps: seq<Step>)
    ensures Execution(ws, steps) && |steps| == 13 && |ws| == 14 && steps[12] == EnqueueFailure(1, 3, 0)
    ensures TASK in ws[12].tasks && FollowUpsReady(ws[12].db) && !FollowUpsReady(ws[13].db)
  {
    hide Retried, FollowUpsReady, Shows, Next, Enabled, Execution, EnqueueFailed;
    var seen;
    ws, steps, seen := RetriedTrail();
    RetriedReady(seen.db);
    FailedSendShows(ws[12], seen, true, 1, 3);
    ShownDb(ws[12], seen);
    ShownDb(Next(ws[12], EnqueueFailure(1, 3, 0)), seen.(db := EnqueueFailed(seen.db, 1, 3)));
    Grown(ws, steps, EnqueueFailure(1, 3, 0));
    ws, steps := ws + [Next(ws[12], EnqueueFailure(1, 3, 0))], steps + [EnqueueFailure(1, 3, 0)];
  }

  lemma IsRetried(s: State)
    requires s.events == DbR().events[1 := Pushed("one", "a", EventStatus.Validated, 6)]
    requires s.runs == DbR().runs[6 := NewRun(MAIN, WebhookPush, Some(1), Blocked, 0)]
    ensures Retried(s)
  {
  }
}
